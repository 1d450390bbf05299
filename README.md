# sleeksocial post generation, modelled in Dafny

Sleek Social is a Streamlit app that asks an LLM for social media posts. Its one
piece of real logic is `generate_posts(idea, platforms, num_posts, tags_option,
language)` in `main.py`. It works in three steps:

- It builds a dictionary with an empty list for every selected platform.
- It writes one shared base prompt from the idea, the post count, the language
  and the tag option.
- For each platform it makes `num_posts` sequential chat-completion calls with
  the same request, which is the base prompt plus a "tailored for <platform>"
  clause. It strips every reply and appends it to that platform's list.

The sentiment page also maps the classifier's label to an emoji.

This project models both pieces:

- `wrappers.dfy` holds `Option`.
- `text.dfy` (module `Text`) models Python's `str.strip()`.
  - Whitespace is the `str.isspace()` set: `\t \n \x0b \x0c \r`, `\x1c`-`\x1f`, space, `\x85`, `\xa0`, U+1680, U+2000-U+200A, U+2028, U+2029, U+202F, U+205F and U+3000.
  - Lemmas prove that the result is the unique infix that has only whitespace around it and no whitespace at either end, and that stripping is idempotent.
- `prompts.dfy` (module `Prompts`) covers:
  - the base prompt and the platform prompt, character for character;
  - the decimal rendering of the post count, with a parse-back round trip;
  - the request body: model `llama3-70b`, the fixed system message, then the platform prompt as the user message.
- `generation.dfy` (module `Generation`) is `generate_posts` itself:
  - `GeneratePosts` is an imperative method built in layers.
    - It builds the dictionary with a map comprehension and the base prompt.
    - `FillPlatforms` runs the outer loop and calls `ProcessPlatform` for each platform.
    - `ProcessPlatform` calls `AppendDrafts`, the inner loop, which updates a local `map<string, seq<string>>`.
  - It is proved against the recursive specification functions `Fill`, `Batch` and `Plan`.
- `generation_facts.dfy` (module `GenerationFacts`) holds the properties of those functions:
  - the key set;
  - the list lengths, including repeated platforms;
  - the call order, and every repeat sending the same request;
  - for a platform list without repeats, each entry being the stripped reply of a known call;
  - no outer whitespace in any entry;
  - the empty-input cases;
  - failure of the whole call as soon as one completion fails;
  - two worked examples.
- `sentiment.dfy` (module `Sentiment`) is the label-to-emoji branch.

The remote call `llama.run(api_request_json)` followed by
`.json()['choices'][0]['message']['content']` is a parameter
`complete: (nat, Request) -> Option<string>`:

- The `nat` is the number of calls the run has already issued, so identical requests may get different replies.
- `None` stands for any exception on that path: a transport error, a bad status, or a missing field.

Three behaviours of the code worth spelling out:

- **Failure.** The code has no `try`/`except` around lines 44-45, so the first failing call propagates out of `generate_posts` and no partial mapping is returned. The model's `None` result captures this (`GeneratedSucceedsIff`, `ExampleFailureLosesEverything`).
- **No validation.** The code does not check the platform list or the post count:
  - an empty platform list gives the empty mapping with no calls (`NoPlatforms`);
  - `num_posts <= 0` gives an empty list per platform, also with no calls (`NoPosts`);
  - a negative count is written into the prompt as is (`ShowInt`).
- **Repeated platforms.** The loop at line 33 runs over the list, not the keys. A repeated platform therefore keeps one key, and its list gets `k * num_posts` drafts, where k is the number of times it is listed (none when `num_posts <= 0`) (`GeneratedLengths`, `ExampleRepeatedPlatform`).

## Model

| member | source | states |
|---|---|---|
| Text.TrimStart | main.py:45 | No contract of its own; characterised by TrimStartShape and TrimStartStopsAt. |
| Text.TrimEnd | main.py:45 | No contract of its own; characterised by TrimEndShape and TrimEndStopsAt. |
| Text.Strip | main.py:45 | No contract of its own; characterised by StripIsInfix, StripUnique, StripHasNoOuterSpace, StripIdempotent and StripKeepsTrimmed. |
| Text.TrimStartShape | main.py:45 | Dropping leading whitespace leaves a suffix. What was dropped is all whitespace, and the suffix does not start with whitespace. |
| Text.TrimEndShape | main.py:45 | Dropping trailing whitespace leaves a prefix. What was dropped is all whitespace, and the prefix does not end with whitespace. |
| Text.StripHasNoOuterSpace | main.py:45 | A stripped string neither starts nor ends with a whitespace character. |
| Text.StripIsInfix | main.py:45 | A stripped string is an infix of the original, with only whitespace cut off on either side. |
| Text.TrimStartStopsAt | main.py:45 | Leading trimming stops at the first non-whitespace character. |
| Text.TrimEndStopsAt | main.py:45 | Trailing trimming stops after the last non-whitespace character. |
| Text.StripUnique | main.py:45 | Any split into whitespace, then a core with no outer whitespace, then whitespace has that core as its strip. |
| Text.StripIdempotent | main.py:45 | Stripping twice is the same as stripping once. |
| Text.StripKeepsTrimmed | main.py:45 | A string with no outer whitespace is its own strip. |
| Prompts.ShowInt | main.py:26 | No contract of its own; characterised by ShowIntRoundTrip and ShowIntHasNoSpace, on top of ShowNat's contract. |
| Prompts.BasePrompt | main.py:25-31 | No contract of its own; characterised by BasePromptFields and BasePromptCount. |
| Prompts.PlatformPrompt | main.py:34 | No contract of its own; characterised by PlatformPromptRoundTrip and PlatformPromptInjective. |
| Prompts.CompletionRequest | main.py:35-41 | No contract of its own; characterised by CompletionRequestCarriesPrompt. |
| Prompts.ShowNat | main.py:26 | The decimal rendering of a natural number is non-empty, made of digits only and has no leading zero. With the round trip this fixes it as Python's canonical `str(n)`. |
| Prompts.ShowNatRoundTrip | main.py:26 | Parsing the decimal rendering of a natural number gives back the number. |
| Prompts.ShowIntRoundTrip | main.py:26 | The rendering of the post count, negative values included, parses back to the count. |
| Prompts.BasePromptFields | main.py:25-31 | The base prompt is "Create ", then the count, then " engaging social media posts based on the following idea:\n\nIdea: ", then the idea, "\nLanguage: ", the language, "\nTags: ", the tag option and "\nEach post should be 300 words long.\n". Every piece sits at the stated offset and is verbatim. |
| Prompts.BasePromptCount | main.py:25-26 | The post count can be read back from the base prompt alone: `ReadCount` takes the word after "Create " up to the first space and parses it, and it returns the count. |
| Prompts.TakeWordStops | main.py:26 | A word with no space, followed by a space, is read back whole. |
| Prompts.ShowIntHasNoSpace | main.py:26 | The rendered count, minus sign included, contains no space, so the space that follows it in the prompt ends it. |
| Prompts.PlatformPromptRoundTrip | main.py:34 | A platform prompt extends the base prompt, and the platform can be decoded back out of it exactly. |
| Prompts.PlatformPromptInjective | main.py:34 | Two platforms get the same prompt only when they are the same platform. |
| Prompts.CompletionRequestCarriesPrompt | main.py:35-41 | Every request names "llama3-70b" and opens with the system message "You are a social media assistant.". Its user message is exactly the platform prompt, from which the platform can be recovered. |
| Generation.RangeLength | main.py:43 | No contract of its own; the number of times `range(num_posts)` runs, used by NoPosts, GeneratedLengths and GeneratedLengthsDistinct. |
| Generation.EmptyPosts | main.py:24 | No contract of its own; characterised by GeneratedKeys and NoPlatforms, and used by GeneratePosts itself. |
| Generation.PlatformRequest | main.py:34-41 | No contract of its own; the request for one platform, characterised through PlatformPromptRoundTrip and CompletionRequestCarriesPrompt. |
| Generation.Calls | main.py:33-43 | No contract of its own; characterised by CallsProduct. |
| Generation.Plan | main.py:33-44 | No contract of its own; characterised by PlanLength, PlanAt, PlanRequests and FillStep. |
| Generation.CallPlan | main.py:23-44 | No contract of its own; the plan of one `generate_posts` call, characterised by GeneratePosts and GeneratedSucceedsIff. |
| Generation.Generated | main.py:23-48 | No contract of its own; the return value of `generate_posts`, characterised by GeneratePosts, GeneratedSucceedsIff, GeneratedKeys, GeneratedLengths, GeneratedEntry, GeneratedTrimmed, NoPlatforms and NoPosts. |
| Generation.Copies | main.py:43-44 | The repeated calls for one platform are `count` copies of one and the same request. |
| Generation.Batch | main.py:43-46 | One platform's calls yield one entry per call, in call order. Entry k is the stripped reply of call `first + k`. The batch fails exactly when one of its calls fails. |
| Generation.Fill | main.py:33-46 | The fill loop never adds or removes keys. |
| Generation.GeneratePosts | main.py:23-48 | The method returns exactly the specified result. It issues a prefix of the planned calls: the whole plan on success. Only the last issued call fails, and only when the run fails. A failed run has issued at least one call. |
| Generation.FillPlatforms | main.py:33-46 | The outer loop returns the specified fill from the initial dictionary and issues the plan, or a prefix of it that ends at the first failing call. |
| Generation.ProcessPlatform | main.py:34-46 | One platform's turn consumes that platform's slice of the plan and leaves the rest of the run unchanged. A failure makes the remaining run fail and stops at the failing call. |
| Generation.AppendDrafts | main.py:43-46 | The inner loop succeeds exactly when the batch does. It appends the batch to the platform's list and changes no other key. It issues `n` copies of the request, or stops right after the first failing one. |
| Generation.BatchExtends | main.py:43-46 | One more successful call appends its stripped reply to the batch. |
| Generation.BatchFails | main.py:44-45 | A single failing call anywhere in the batch makes the batch fail. |
| Generation.FillStep | main.py:33-46 | Processing the platform at position i runs its batch and then continues with the rest. The plan is that platform's copies followed by the rest of the plan. |
| GenerationFacts.PlanLength | main.py:33-43 | The plan has `len(platforms) * num_posts` calls. |
| GenerationFacts.PlanAt | main.py:33-44 | Call number `Calls(i, n) + j` is the j-th repeat of the platform at position i, and it sends that platform's request. |
| GenerationFacts.CallsProduct | main.py:33-43 | The platform at position i starts at call number `i * n`. |
| GenerationFacts.PlanRequests | main.py:33-41 | Every planned request is the request of some listed platform. |
| GenerationFacts.FillSucceedsIff | main.py:44-45 | The fill loop succeeds if and only if every planned call gets a reply. |
| GenerationFacts.FillFailsAt | main.py:44-45 | One failing planned call makes the whole fill fail. |
| GenerationFacts.FillSucceeds | main.py:44-46 | When every planned call gets a reply, the fill succeeds. |
| GenerationFacts.GeneratedSucceedsIff | main.py:23-48 | `generate_posts` returns a mapping if and only if every call of its plan gets a reply. Otherwise nothing is returned. |
| GenerationFacts.GeneratedKeys | main.py:24 | The result's keys are exactly the listed platforms: nothing extra, nothing missing, duplicates collapsed. |
| GenerationFacts.FillUntouched | main.py:46 | A platform the loop does not visit keeps its list. |
| GenerationFacts.FillLengths | main.py:43-46 | Every platform's list grows by `num_posts` for each time the platform is listed. |
| GenerationFacts.GeneratedLengths | main.py:23-48 | In the result, a platform listed c times has `c * num_posts` drafts (none when `num_posts <= 0`). |
| GenerationFacts.DistinctOccursOnce | main.py:33 | In a list without repeats, each platform is listed exactly once. |
| GenerationFacts.GeneratedLengthsDistinct | main.py:43-46 | Without repeated platforms, each list has exactly `num_posts` drafts. |
| GenerationFacts.FillEntries | main.py:43-46 | Without repeats, the platform at position i gets exactly its own batch of calls, appended in call order. |
| GenerationFacts.DistinctTail | main.py:33 | Dropping the first platform keeps the list free of repeats, and the first platform does not occur later. |
| GenerationFacts.GeneratedEntry | main.py:43-46 | Without repeats, entry j of the list for the platform at position i is the stripped reply of call `Calls(i, num_posts) + j`, which is call `i * num_posts + j` by `CallsProduct`. That call sent that platform's request and got a reply. |
| GenerationFacts.FillEntry | main.py:43-46 | `GeneratedEntry` generalised to any base prompt and count, starting from empty lists. |
| GenerationFacts.BatchTrimmed | main.py:45 | No entry of a batch has outer whitespace. |
| GenerationFacts.FillTrimmed | main.py:45-46 | If no stored entry has outer whitespace before the fill loop, none has after it. |
| GenerationFacts.GeneratedTrimmed | main.py:45 | No draft in the result has leading or trailing whitespace. |
| GenerationFacts.NoPlatforms | main.py:24 | With no platforms, no call is planned and the result is the empty mapping. |
| GenerationFacts.FillNoCalls | main.py:43 | With zero calls per platform, nothing is planned and the dictionary is unchanged. |
| GenerationFacts.NoPosts | main.py:43 | With `num_posts <= 0`, no call is made and every platform has an empty list. |
| GenerationFacts.ExampleRepeatedPlatform | main.py:24-46 | Platforms `["X", "X"]`, one post each, and a reply of `" draft\n"` give `{"X": ["draft", "draft"]}`. |
| GenerationFacts.ExampleFailureLosesEverything | main.py:43-46 | If the Instagram call succeeds and the LinkedIn call fails, the whole call fails and no drafts are returned. |
| Sentiment.EmojiFor | main.py:110-115 | The emoji is 😊 exactly for "POSITIVE" and 😞 exactly for "NEGATIVE". It is 😐 exactly for every other label. |

## Left out

- The Streamlit UI (pages, sidebar, tabs, text areas, CSS) in main.py:51-83, 86-103, 117-118 and 120-203. It is presentation only, and that includes the line that shows the label and emoji.
- The network call, the HTTP status and JSON decoding inside `llama.run` and `response.json()` (main.py:14, 44-45). They sit in a foreign library and a remote service. They are replaced by the `complete` parameter, and every exception becomes `None`.
- The `transformers` sentiment pipeline and its float confidence score (main.py:20, 106-108, 118). It is an ML model, and the score is floating point.
- The `.env` and API-key loading (main.py:10-14). It is configuration I/O.
- The Summarize and Explain requests (main.py:136-176). Each is one fixed-template round trip with nothing to state beyond the prompt.
- Dictionary insertion order. A Dafny `map` is unordered, so the model says nothing about the order in which keys are listed. The order of drafts within a list is modelled.
- Aliasing of the list objects inside `posts`. The model stores list values, and every list is created fresh at line 24 and never shared.
- `.strip()` on non-string content. A reply whose content is not a string raises in Python; the model folds this into `None` together with every other failure.
- GenerationFacts.GeneratedEntry: states each entry only for a platform list without repeats. With a repeated platform the entries of both passes share one list. The only caller takes its list from `st.multiselect` (main.py:184), which never repeats an option, and the lengths for repeated lists are stated by `GeneratedLengths`.
