/**
 * `generate_posts` (main.py, lines 23-48): one shared base prompt, one
 * request per platform, `num_posts` sequential completion calls per
 * platform, every stripped reply appended to that platform's list.
 */
module Generation {
  import opened Wrappers
  import opened Text
  import opened Prompts

  /** The `posts` dictionary: platform name to its drafts in call order. */
  type Posts = map<string, seq<string>>

  /**
   * One `llama.run(request)` followed by the lookup
   * `['choices'][0]['message']['content']`. The first argument is the number
   * of calls already issued by this run of `generate_posts`, so that
   * identical requests may get different replies. `None` stands for any
   * exception on the way: transport error, bad status, missing field.
   */
  type Completion = (nat, Request) -> Option<string>

  /** How many times `for _ in range(numPosts)` runs its body. */
  function RangeLength(numPosts: int): nat
  {
    if numPosts < 0 then 0 else numPosts
  }

  /**
   * How many calls `k` batches of `n` calls make, counted batch by batch:
   * the calls a run issues before those of the platform at position `k`.
   */
  function Calls(k: nat, n: nat): nat
  {
    if k == 0 then 0 else n + Calls(k - 1, n)
  }

  /** The request sent for `platform` (main.py, lines 34-41). */
  function PlatformRequest(base: string, platform: string): Request
  {
    CompletionRequest(PlatformPrompt(base, platform))
  }

  /** The dictionary comprehension of line 24: an empty list per distinct platform. */
  function EmptyPosts(platforms: seq<string>): Posts
  {
    map p | p in platforms :: []
  }

  predicate Distinct(platforms: seq<string>)
  {
    forall a, b :: 0 <= a < b < |platforms| ==> platforms[a] != platforms[b]
  }

  /** Every stored draft has no whitespace at either end. */
  predicate AllTrimmed(posts: Posts)
  {
    forall p, k :: p in posts && 0 <= k < |posts[p]| ==> NoOuterSpace(posts[p][k])
  }

  /** `count` copies of `request`. */
  function Copies(request: Request, count: nat): (r: seq<Request>)
    ensures |r| == count
    ensures forall k :: 0 <= k < count ==> r[k] == request
  {
    if count == 0 then [] else Copies(request, count - 1) + [request]
  }

  /**
   * The requests a run issues when no call fails, in issue order: for each
   * platform in turn, `n` copies of that platform's request.
   */
  function Plan(base: string, platforms: seq<string>, n: nat): seq<Request>
  {
    if platforms == [] then []
    else Copies(PlatformRequest(base, platforms[0]), n) + Plan(base, platforms[1..], n)
  }

  /**
   * The inner loop (lines 43-46) for one request: `count` calls numbered
   * `first`, `first + 1`, ...; it yields the stripped replies in call order,
   * or `None` as soon as one call fails.
   */
  function Batch(request: Request, count: nat, complete: Completion, first: nat): (r: Option<seq<string>>)
    ensures r.Some? <==> forall k :: first <= k < first + count ==> complete(k, request).Some?
    ensures r.Some? ==> |r.value| == count
    ensures r.Some? ==> forall k :: first <= k < first + count ==> r.value[k - first] == Strip(complete(k, request).value)
  {
    if count == 0 then Some([])
    else
      match Batch(request, count - 1, complete, first)
      case None => None
      case Some(drafts) =>
        match complete(first + count - 1, request)
        case None => None
        case Some(reply) => Some(drafts + [Strip(reply)])
  }

  /**
   * The outer loop (lines 33-46) over the platforms still to do, from the
   * dictionary `posts` built so far, with `first` calls already issued: each
   * platform issues the next `n` calls and its drafts are appended to its
   * list. `None` when a call fails: the exception leaves the function and no
   * mapping is returned.
   */
  function Fill(posts: Posts, base: string, platforms: seq<string>, n: nat, complete: Completion,
                first: nat): (r: Option<Posts>)
    requires forall p :: p in platforms ==> p in posts
    ensures r.Some? ==> r.value.Keys == posts.Keys
    decreases |platforms|
  {
    if platforms == [] then Some(posts)
    else
      var platform := platforms[0];
      match Batch(PlatformRequest(base, platform), n, complete, first)
      case None => None
      case Some(drafts) =>
        Fill(posts[platform := posts[platform] + drafts], base, platforms[1..], n, complete, first + n)
  }

  /** What `generate_posts(idea, platforms, numPosts, tagsOption, language)` returns, `None` if it raises. */
  function Generated(idea: string, platforms: seq<string>, numPosts: int, tagsOption: string,
                     language: string, complete: Completion): Option<Posts>
  {
    Fill(EmptyPosts(platforms), BasePrompt(idea, numPosts, tagsOption, language),
         platforms, RangeLength(numPosts), complete, 0)
  }

  /** The requests `generate_posts` issues when no call fails. */
  function CallPlan(idea: string, platforms: seq<string>, numPosts: int, tagsOption: string,
                    language: string): seq<Request>
  {
    Plan(BasePrompt(idea, numPosts, tagsOption, language), platforms, RangeLength(numPosts))
  }

  /**
   * `generate_posts` itself. Besides the result it returns `issued`, the
   * requests it sent in order: a prefix of the plan; all of it when the run
   * succeeds, and up to and including the first failing call when it does not.
   */
  method GeneratePosts(idea: string, platforms: seq<string>, numPosts: int, tagsOption: string,
                       language: string, complete: Completion)
    returns (result: Option<Posts>, issued: seq<Request>)
    ensures result == Generated(idea, platforms, numPosts, tagsOption, language, complete)
    ensures issued <= CallPlan(idea, platforms, numPosts, tagsOption, language)
    ensures result.Some? ==> issued == CallPlan(idea, platforms, numPosts, tagsOption, language)
    ensures result.None? ==> |issued| > 0
    ensures forall k :: 0 <= k < |issued| ==>
      (complete(k, issued[k]).None? <==> result.None? && k == |issued| - 1)
  {
    var posts := EmptyPosts(platforms);
    var base := BasePrompt(idea, numPosts, tagsOption, language);
    var n := RangeLength(numPosts);
    result, issued := FillPlatforms(posts, base, platforms, n, complete);
  }

  /**
   * The outer loop (lines 33-46) of `generate_posts`, once the dictionary
   * and the base prompt are built.
   */
  method FillPlatforms(init: Posts, base: string, platforms: seq<string>, n: nat, complete: Completion)
    returns (result: Option<Posts>, issued: seq<Request>)
    requires forall p :: p in platforms ==> p in init
    ensures result == Fill(init, base, platforms, n, complete, 0)
    ensures issued <= Plan(base, platforms, n)
    ensures result.Some? ==> issued == Plan(base, platforms, n)
    ensures result.None? ==> |issued| > 0
    ensures forall k :: 0 <= k < |issued| ==>
      (complete(k, issued[k]).None? <==> result.None? && k == |issued| - 1)
  {
    var posts := init;
    issued := [];
    for i := 0 to |platforms|
      invariant forall p :: p in platforms ==> p in posts
      invariant Fill(posts, base, platforms[i..], n, complete, |issued|) == Fill(init, base, platforms, n, complete, 0)
      invariant issued + Plan(base, platforms[i..], n) == Plan(base, platforms, n)
      invariant forall k :: 0 <= k < |issued| ==> complete(k, issued[k]).Some?
    {
      var ok;
      ok, posts, issued := ProcessPlatform(posts, base, platforms, n, complete, i, issued);
      if !ok {
        result := None;
        return;
      }
    }
    result := Some(posts);
  }

  /**
   * One pass of the outer loop's body (lines 34-46): the request for the
   * platform at position `i`, then its `n` calls. On success the dictionary
   * and the log are ready for the remaining platforms; on failure the run
   * fails and the log ends with the failing call.
   */
  method ProcessPlatform(posts: Posts, base: string, platforms: seq<string>, n: nat, complete: Completion,
                         i: nat, sent: seq<Request>)
    returns (ok: bool, updated: Posts, issued: seq<Request>)
    requires i < |platforms|
    requires forall p :: p in platforms ==> p in posts
    ensures sent <= issued
    ensures ok ==> forall p :: p in platforms ==> p in updated
    ensures ok ==> Fill(updated, base, platforms[i + 1..], n, complete, |issued|)
                   == Fill(posts, base, platforms[i..], n, complete, |sent|)
    ensures ok ==> issued + Plan(base, platforms[i + 1..], n) == sent + Plan(base, platforms[i..], n)
    ensures ok ==> forall k :: |sent| <= k < |issued| ==> complete(k, issued[k]).Some?
    ensures !ok ==> Fill(posts, base, platforms[i..], n, complete, |sent|).None?
    ensures !ok ==> |sent| < |issued| && issued <= sent + Plan(base, platforms[i..], n)
    ensures !ok ==> forall k :: |sent| <= k < |issued| ==> (complete(k, issued[k]).None? <==> k == |issued| - 1)
  {
    var platform := platforms[i];
    var platformPrompt := PlatformPrompt(base, platform);
    var request := CompletionRequest(platformPrompt);
    assert request == PlatformRequest(base, platform);
    FillStep(posts, base, platforms, n, complete, |sent|, i);
    ok, updated, issued := AppendDrafts(posts, platform, request, n, complete, sent);
    var rest := Plan(base, platforms[i + 1..], n);
    if ok {
      AppendAssociates(sent, Copies(request, n), rest);
    } else {
      CopiesPrefix(request, |issued| - |sent|, n);
      AppendAssociates(sent, Copies(request, n), rest);
    }
  }

  /**
   * The inner loop (lines 43-46) for one platform: up to `n` calls with the
   * same request, numbered on from the `sent` requests, each stripped reply
   * appended to `platform`'s list. `ok` is false when a call fails; `issued`
   * then ends with the failing request.
   */
  method AppendDrafts(posts: Posts, platform: string, request: Request, n: nat,
                      complete: Completion, sent: seq<Request>)
    returns (ok: bool, updated: Posts, issued: seq<Request>)
    requires platform in posts
    ensures var b := Batch(request, n, complete, |sent|);
      && ok == b.Some?
      && (ok ==> updated == posts[platform := posts[platform] + b.value])
    ensures ok ==> issued == sent + Copies(request, n)
    ensures !ok ==> |sent| < |issued| <= |sent| + n && issued == sent + Copies(request, |issued| - |sent|)
    ensures forall k :: |sent| <= k < |issued| ==> (complete(k, issued[k]).None? <==> !ok && k == |issued| - 1)
  {
    updated := posts;
    issued := sent;
    ghost var drafts: seq<string> := [];
    assert posts[platform] + drafts == posts[platform];
    assert posts[platform := posts[platform]] == posts;
    for j := 0 to n
      invariant Batch(request, j, complete, |sent|) == Some(drafts)
      invariant updated == posts[platform := posts[platform] + drafts]
      invariant issued == sent + Copies(request, j)
    {
      var response := complete(|issued|, request);
      issued := issued + [request];
      if response.None? {
        ok := false;
        BatchFails(request, n, complete, |sent|, j);
        return;
      }
      BatchExtends(request, j, complete, |sent|, drafts, response.value);
      var generated := Strip(response.value);
      updated := updated[platform := updated[platform] + [generated]];
      assert posts[platform] + drafts + [generated] == posts[platform] + (drafts + [generated]);
      drafts := drafts + [generated];
    }
    ok := true;
  }

  /** One more successful call extends the batch by the stripped reply. */
  lemma BatchExtends(request: Request, j: nat, complete: Completion, first: nat,
                     drafts: seq<string>, reply: string)
    requires Batch(request, j, complete, first) == Some(drafts)
    requires complete(first + j, request) == Some(reply)
    ensures Batch(request, j + 1, complete, first) == Some(drafts + [Strip(reply)])
  {
  }

  /** A failing call anywhere in the batch makes the batch fail. */
  lemma BatchFails(request: Request, count: nat, complete: Completion, first: nat, j: nat)
    requires j < count && complete(first + j, request).None?
    ensures Batch(request, count, complete, first).None?
  {
  }

  /** The outer loop's step: the platform at position `i` is processed next. */
  lemma FillStep(posts: Posts, base: string, platforms: seq<string>, n: nat, complete: Completion,
                 first: nat, i: nat)
    requires i < |platforms|
    requires forall p :: p in platforms ==> p in posts
    ensures var platform := platforms[i];
      var b := Batch(PlatformRequest(base, platform), n, complete, first);
      Fill(posts, base, platforms[i..], n, complete, first)
        == if b.None? then None
           else Fill(posts[platform := posts[platform] + b.value], base, platforms[i + 1..], n, complete, first + n)
    ensures Plan(base, platforms[i..], n) == Copies(PlatformRequest(base, platforms[i]), n) + Plan(base, platforms[i + 1..], n)
  {
    assert platforms[i..][1..] == platforms[i + 1..];
  }

  /** Fewer copies of a request are a prefix of more copies. */
  lemma CopiesPrefix(request: Request, m: nat, n: nat)
    requires m <= n
    ensures Copies(request, m) <= Copies(request, n)
  {
  }

  lemma AppendAssociates<T>(a: seq<T>, b: seq<T>, c: seq<T>)
    ensures (a + b) + c == a + (b + c)
  {
  }
}
