/**
 * The prompts and the chat request that `generate_posts` sends to the
 * completion service (main.py, lines 25-41).
 */
module Prompts {
  import opened Wrappers

  const ModelName := "llama3-70b"
  const SystemInstruction := "You are a social media assistant."

  // The fixed pieces of the shared base prompt, in order.
  const IntroHead := "Create "
  // The space that ends the count is split off so that `ReadCount` can see it.
  const IntroTail := " " + "engaging social media posts based on the following idea:\n\nIdea: "
  const LanguageLabel := "\nLanguage: "
  const TagsLabel := "\nTags: "
  const LengthLine := "\nEach post should be 300 words long.\n"

  // The fixed pieces of the per-platform clause.
  const TailorHead := "\nCreate posts specifically tailored for "
  const TailorTail := ".\n"

  /** One role-tagged chat message. */
  datatype Message = Message(role: string, content: string)

  /** The JSON body passed to the completion client: a model name and the messages. */
  datatype Request = Request(model: string, messages: seq<Message>)

  predicate IsDigit(c: char) {
    '0' <= c <= '9'
  }

  function DigitChar(d: nat): (c: char)
    requires d < 10
    ensures IsDigit(c)
  {
    (d + '0' as int) as char
  }

  function DigitValue(c: char): nat
  {
    if IsDigit(c) then c as int - '0' as int else 0
  }

  /** The decimal digits of `n`, most significant first, as Python's `str` writes them. */
  function ShowNat(n: nat): (r: string)
    ensures |r| > 0
    ensures forall k :: 0 <= k < |r| ==> IsDigit(r[k])
    ensures r[0] == '0' ==> n == 0
    ensures |r| > 1 ==> r[0] != '0'
  {
    if n < 10 then [DigitChar(n)] else ShowNat(n / 10) + [DigitChar(n % 10)]
  }

  /** How an f-string renders the integer `n`: a minus sign before the digits when negative. */
  function ShowInt(n: int): string
  {
    if n < 0 then "-" + ShowNat(-n) else ShowNat(n)
  }

  function ParseNat(s: string): nat
  {
    if s == [] then 0 else 10 * ParseNat(s[..|s| - 1]) + DigitValue(s[|s| - 1])
  }

  /** Reads back a decimal integer with an optional leading minus sign. */
  function ParseInt(s: string): int
  {
    if |s| > 0 && s[0] == '-' then -(ParseNat(s[1..]) as int) else ParseNat(s)
  }

  lemma {:induction false} ShowNatRoundTrip(n: nat)
    ensures ParseNat(ShowNat(n)) == n
  {
    if n >= 10 {
      var s := ShowNat(n);
      assert s[..|s| - 1] == ShowNat(n / 10);
      ShowNatRoundTrip(n / 10);
    }
  }

  /** The post count written into the prompt can be read back unchanged. */
  lemma ShowIntRoundTrip(n: int)
    ensures ParseInt(ShowInt(n)) == n
  {
    if n < 0 {
      ShowNatRoundTrip(-n);
      assert ShowInt(n)[1..] == ShowNat(-n);
    } else {
      ShowNatRoundTrip(n);
      assert IsDigit(ShowNat(n)[0]);
    }
  }

  /** The shared instruction built once per call of `generate_posts`. */
  function BasePrompt(idea: string, numPosts: int, tagsOption: string, language: string): string
  {
    IntroHead + (ShowInt(numPosts) + (IntroTail + (idea
      + (LanguageLabel + (language + (TagsLabel + (tagsOption + LengthLine)))))))
  }

  /** Where the idea starts in the base prompt for a given post count. */
  function IdeaOffset(numPosts: int): nat
  {
    |IntroHead| + |ShowInt(numPosts)| + |IntroTail|
  }

  /**
   * The base prompt opens with the post count, carries the idea, the language and the tag option verbatim, each after
   * its label, and closes with the fixed 300-word line.
   */
  lemma BasePromptFields(idea: string, numPosts: int, tagsOption: string, language: string)
    ensures var r := BasePrompt(idea, numPosts, tagsOption, language);
      var c := |IntroHead|;
      var cn := c + |ShowInt(numPosts)|;
      var i := IdeaOffset(numPosts);
      var l := i + |idea| + |LanguageLabel|;
      var t := l + |language| + |TagsLabel|;
      && |r| == t + |tagsOption| + |LengthLine|
      && r[..c] == IntroHead
      && r[c..cn] == ShowInt(numPosts)
      && r[cn..i] == IntroTail
      && r[i..i + |idea|] == idea
      && r[i + |idea|..l] == LanguageLabel
      && r[l..l + |language|] == language
      && r[l + |language|..t] == TagsLabel
      && r[t..t + |tagsOption|] == tagsOption
      && r[t + |tagsOption|..] == LengthLine
  {
    Layout(IntroHead, ShowInt(numPosts), IntroTail, idea, LanguageLabel, language, TagsLabel, tagsOption, LengthLine);
  }

  /** The leading characters of `s` up to, not including, the first space. */
  function TakeWord(s: string): string
  {
    if s == [] || s[0] == ' ' then [] else [s[0]] + TakeWord(s[1..])
  }

  /**
   * Reads the post count out of a prompt alone: the word after "Create ",
   * which ends at the space that opens the rest of the first line.
   */
  function ReadCount(prompt: string): int
  {
    if |prompt| < |IntroHead| then 0 else ParseInt(TakeWord(prompt[|IntroHead|..]))
  }

  /** A word with no space in it, followed by a space, is read back whole. */
  lemma {:induction false} TakeWordStops(a: string, b: string)
    requires forall k :: 0 <= k < |a| ==> a[k] != ' '
    requires b != [] && b[0] == ' '
    ensures TakeWord(a + b) == a
  {
    if a != [] {
      assert (a + b)[0] == a[0];
      assert (a + b)[1..] == a[1..] + b;
      TakeWordStops(a[1..], b);
    }
  }

  /** The rendered count contains no space. */
  lemma ShowIntHasNoSpace(n: int)
    ensures forall k :: 0 <= k < |ShowInt(n)| ==> ShowInt(n)[k] != ' '
  {
    if n < 0 {
      var d := ShowNat(-n);
      forall k | 0 <= k < |ShowInt(n)|
        ensures ShowInt(n)[k] != ' '
      {
        if k > 0 {
          assert ShowInt(n)[k] == d[k - 1];
        }
      }
    }
  }

  /** The post count can be read back from the base prompt without knowing it. */
  lemma BasePromptCount(idea: string, numPosts: int, tagsOption: string, language: string)
    ensures ReadCount(BasePrompt(idea, numPosts, tagsOption, language)) == numPosts
  {
    var r := BasePrompt(idea, numPosts, tagsOption, language);
    var tail := idea + (LanguageLabel + (language + (TagsLabel + (tagsOption + LengthLine))));
    var rest := IntroTail + tail;
    assert r[|IntroHead|..] == ShowInt(numPosts) + rest;
    assert |IntroTail| > 0 && IntroTail[0] == ' ';
    assert rest[0] == IntroTail[0];
    ShowIntHasNoSpace(numPosts);
    TakeWordStops(ShowInt(numPosts), rest);
    ShowIntRoundTrip(numPosts);
  }

  /** Where each of nine concatenated parts sits in the whole. */
  lemma Layout(a: string, b: string, c: string, d: string, e: string,
               f: string, g: string, h: string, k: string)
    ensures var r := a + (b + (c + (d + (e + (f + (g + (h + k)))))));
      var pb := |a|;
      var pc := pb + |b|;
      var pd := pc + |c|;
      var pe := pd + |d|;
      var pf := pe + |e|;
      var pg := pf + |f|;
      var ph := pg + |g|;
      var pk := ph + |h|;
      && |r| == pk + |k|
      && r[..pb] == a && r[pb..pc] == b && r[pc..pd] == c && r[pd..pe] == d
      && r[pe..pf] == e && r[pf..pg] == f && r[pg..ph] == g && r[ph..pk] == h
      && r[pk..] == k
  {
    var r := a + (b + (c + (d + (e + (f + (g + (h + k)))))));
    var pd := |a| + |b| + |c|;
    var pg := pd + |d| + |e| + |f|;
    Layout3(r, 0, a, b, c, d + (e + (f + (g + (h + k)))));
    Layout3(r, pd, d, e, f, g + (h + k));
    Layout3(r, pg, g, h, k, []);
    assert r[..|a|] == r[0..|a|];
  }

  /** If `r` from `x` on is `a + (b + (c + rest))`, then where `a`, `b`, `c` and `rest` sit. */
  lemma Layout3(r: string, x: nat, a: string, b: string, c: string, rest: string)
    requires x <= |r| && r[x..] == a + (b + (c + rest))
    ensures x + |a| + |b| + |c| <= |r|
    ensures r[x..x + |a|] == a
    ensures r[x + |a|..x + |a| + |b|] == b
    ensures r[x + |a| + |b|..x + |a| + |b| + |c|] == c
    ensures r[x + |a| + |b| + |c|..] == rest
  {
    Peel(r, x, a, b + (c + rest));
    Peel(r, x + |a|, b, c + rest);
    Peel(r, x + |a| + |b|, c, rest);
  }

  /** If `r` from `x` on is `u + v`, then `u` sits at `x` and `v` follows it. */
  lemma Peel(r: string, x: nat, u: string, v: string)
    requires x <= |r| && r[x..] == u + v
    ensures x + |u| <= |r|
    ensures r[x..x + |u|] == u && r[x + |u|..] == v
  {
    assert r[x..x + |u|] == r[x..][..|u|];
    assert r[x + |u|..] == r[x..][|u|..];
  }

  /** The base prompt followed by the clause that names the platform (main.py, line 34). */
  function PlatformPrompt(base: string, platform: string): string
  {
    base + TailorHead + platform + TailorTail
  }

  /**
   * Reads the platform back out of a platform prompt built on `base`, or
   * `None` when `prompt` does not have that shape.
   */
  function PlatformOf(base: string, prompt: string): Option<string>
  {
    var lo := |base| + |TailorHead|;
    if |prompt| >= lo + |TailorTail|
       && prompt[..|base|] == base
       && prompt[|base|..lo] == TailorHead
       && prompt[|prompt| - |TailorTail|..] == TailorTail
    then Some(prompt[lo..|prompt| - |TailorTail|])
    else None
  }

  /** Every platform prompt extends the base prompt and names its platform recoverably. */
  lemma PlatformPromptRoundTrip(base: string, platform: string)
    ensures base <= PlatformPrompt(base, platform)
    ensures PlatformOf(base, PlatformPrompt(base, platform)) == Some(platform)
  {
    var p := PlatformPrompt(base, platform);
    assert p[..|base|] == base;
    assert p[|base|..|base| + |TailorHead|] == TailorHead;
    assert p[|p| - |TailorTail|..] == TailorTail;
    assert p[|base| + |TailorHead|..|p| - |TailorTail|] == platform;
  }

  /** Two platforms get the same prompt only if they are the same platform. */
  lemma PlatformPromptInjective(base: string, p: string, q: string)
    requires PlatformPrompt(base, p) == PlatformPrompt(base, q)
    ensures p == q
  {
    PlatformPromptRoundTrip(base, p);
    PlatformPromptRoundTrip(base, q);
  }

  /** The request body of main.py, lines 35-41: a fixed system message, then the prompt as the user message. */
  function CompletionRequest(prompt: string): Request
  {
    Request(ModelName, [Message("system", SystemInstruction), Message("user", prompt)])
  }

  /** The user message of a two-message request, if there is one. */
  function UserPrompt(request: Request): Option<string>
  {
    if |request.messages| == 2 && request.messages[1].role == "user"
    then Some(request.messages[1].content)
    else None
  }

  /**
   * Every request names "llama3-70b", opens with the system message
   * "You are a social media assistant." and carries exactly `prompt` as its
   * user message; so the platform can be recovered from the request.
   */
  lemma CompletionRequestCarriesPrompt(base: string, platform: string)
    ensures var r := CompletionRequest(PlatformPrompt(base, platform));
      && r.model == "llama3-70b"
      && r.messages[0] == Message("system", "You are a social media assistant.")
      && UserPrompt(r) == Some(PlatformPrompt(base, platform))
      && PlatformOf(base, UserPrompt(r).value) == Some(platform)
  {
    PlatformPromptRoundTrip(base, platform);
  }
}
