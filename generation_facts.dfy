/**
 * What `generate_posts` (main.py, lines 23-48) guarantees, stated about the
 * functions `Fill`, `Plan` and `Generated` that its method is proved against.
 */
module GenerationFacts {
  import opened Wrappers
  import opened Text
  import opened Prompts
  import opened Generation

  // ---------------------------------------------------------------------
  // The plan of calls
  // ---------------------------------------------------------------------

  /** Each platform contributes `n` calls. */
  lemma {:induction false} PlanLength(base: string, platforms: seq<string>, n: nat)
    ensures |Plan(base, platforms, n)| == |platforms| * n
  {
    if platforms != [] {
      PlanLength(base, platforms[1..], n);
      assert |platforms| * n == n + (|platforms| - 1) * n;
    }
  }

  /**
   * Call order: call number `Calls(i, n) + j`, which is `i * n + j` by
   * `CallsProduct`, is the `j`-th repeat for the platform
   * at position `i`, and it sends that platform's request, the same for
   * every repeat.
   */
  lemma {:induction false} PlanAt(base: string, platforms: seq<string>, n: nat, i: nat, j: nat)
    requires i < |platforms| && j < n
    ensures Calls(i, n) + j < |Plan(base, platforms, n)|
    ensures Plan(base, platforms, n)[Calls(i, n) + j] == PlatformRequest(base, platforms[i])
  {
    if i > 0 {
      PlanAt(base, platforms[1..], n, i - 1, j);
    }
  }

  /** The calls before position `i` are `i * n`, as the loops' nesting implies. */
  lemma {:induction false} CallsProduct(i: nat, n: nat)
    ensures Calls(i, n) == i * n
  {
    if i > 0 {
      CallsProduct(i - 1, n);
      assert i * n == n + (i - 1) * n;
    }
  }

  /** Every planned request is the request of one of the platforms. */
  lemma {:induction false} PlanRequests(base: string, platforms: seq<string>, n: nat)
    ensures forall r :: r in Plan(base, platforms, n) ==> exists p :: p in platforms && r == PlatformRequest(base, p)
  {
    if platforms != [] {
      PlanRequests(base, platforms[1..], n);
      var head := Copies(PlatformRequest(base, platforms[0]), n);
      forall r | r in Plan(base, platforms, n)
        ensures exists p :: p in platforms && r == PlatformRequest(base, p)
      {
        if r in head {
          assert platforms[0] in platforms;
        } else {
          assert r in Plan(base, platforms[1..], n);
          var p :| p in platforms[1..] && r == PlatformRequest(base, p);
          assert p in platforms;
        }
      }
    }
  }

  // ---------------------------------------------------------------------
  // Success and failure
  // ---------------------------------------------------------------------

  /**
   * The outer loop finishes exactly when every planned call, numbered on
   * from `first`, gets a reply; one failure anywhere loses the whole result.
   */
  lemma FillSucceedsIff(posts: Posts, base: string, platforms: seq<string>, n: nat,
                        complete: Completion, first: nat)
    requires forall p :: p in platforms ==> p in posts
    ensures Fill(posts, base, platforms, n, complete, first).Some?
      <==> forall k :: 0 <= k < |Plan(base, platforms, n)| ==> complete(first + k, Plan(base, platforms, n)[k]).Some?
  {
    var plan := Plan(base, platforms, n);
    if Fill(posts, base, platforms, n, complete, first).Some? {
      forall k | 0 <= k < |plan|
        ensures complete(first + k, plan[k]).Some?
      {
        if complete(first + k, plan[k]).None? {
          FillFailsAt(posts, base, platforms, n, complete, first, k);
        }
      }
    } else if forall k :: 0 <= k < |plan| ==> complete(first + k, plan[k]).Some? {
      FillSucceeds(posts, base, platforms, n, complete, first);
    }
  }

  /** A single failing call of the plan makes the run fail. */
  lemma {:induction false} FillFailsAt(posts: Posts, base: string, platforms: seq<string>, n: nat,
                                       complete: Completion, first: nat, k: nat)
    requires forall p :: p in platforms ==> p in posts
    requires k < |Plan(base, platforms, n)| && complete(first + k, Plan(base, platforms, n)[k]).None?
    ensures Fill(posts, base, platforms, n, complete, first).None?
    decreases |platforms|
  {
    var platform := platforms[0];
    var request := PlatformRequest(base, platform);
    var tail := Plan(base, platforms[1..], n);
    assert Plan(base, platforms, n) == Copies(request, n) + tail;
    var b := Batch(request, n, complete, first);
    if k < n {
      BatchFails(request, n, complete, first, k);
    } else if b.Some? {
      var next := posts[platform := posts[platform] + b.value];
      assert Plan(base, platforms, n)[k] == tail[k - n];
      assert first + k == first + n + (k - n);
      FillFailsAt(next, base, platforms[1..], n, complete, first + n, k - n);
    }
  }

  /** When every call of the plan gets a reply, the run finishes. */
  lemma {:induction false} FillSucceeds(posts: Posts, base: string, platforms: seq<string>, n: nat,
                                        complete: Completion, first: nat)
    requires forall p :: p in platforms ==> p in posts
    requires forall k :: 0 <= k < |Plan(base, platforms, n)| ==> complete(first + k, Plan(base, platforms, n)[k]).Some?
    ensures Fill(posts, base, platforms, n, complete, first).Some?
    decreases |platforms|
  {
    if platforms != [] {
      var platform := platforms[0];
      var request := PlatformRequest(base, platform);
      var tail := Plan(base, platforms[1..], n);
      var whole := Plan(base, platforms, n);
      assert whole == Copies(request, n) + tail;
      forall k | first <= k < first + n
        ensures complete(k, request).Some?
      {
        assert whole[k - first] == request;
        assert first + (k - first) == k;
      }
      var b := Batch(request, n, complete, first);
      var next := posts[platform := posts[platform] + b.value];
      forall k | 0 <= k < |tail|
        ensures complete(first + n + k, tail[k]).Some?
      {
        assert whole[n + k] == tail[k];
        assert first + (n + k) == first + n + k;
      }
      FillSucceeds(next, base, platforms[1..], n, complete, first + n);
    }
  }

  /** `generate_posts` returns a mapping exactly when every call of its plan gets a reply. */
  lemma GeneratedSucceedsIff(idea: string, platforms: seq<string>, numPosts: int, tagsOption: string,
                             language: string, complete: Completion)
    ensures var plan := CallPlan(idea, platforms, numPosts, tagsOption, language);
      (Generated(idea, platforms, numPosts, tagsOption, language, complete).Some?
       <==> forall k :: 0 <= k < |plan| ==> complete(k, plan[k]).Some?)
  {
    var base := BasePrompt(idea, numPosts, tagsOption, language);
    var n := RangeLength(numPosts);
    var plan := Plan(base, platforms, n);
    assert plan == CallPlan(idea, platforms, numPosts, tagsOption, language);
    assert Generated(idea, platforms, numPosts, tagsOption, language, complete)
        == Fill(EmptyPosts(platforms), base, platforms, n, complete, 0);
    if Generated(idea, platforms, numPosts, tagsOption, language, complete).Some? {
      forall k | 0 <= k < |plan|
        ensures complete(k, plan[k]).Some?
      {
        if complete(k, plan[k]).None? {
          FillFailsAt(EmptyPosts(platforms), base, platforms, n, complete, 0, k);
        }
      }
    } else if forall k :: 0 <= k < |plan| ==> complete(k, plan[k]).Some? {
      FillSucceeds(EmptyPosts(platforms), base, platforms, n, complete, 0);
    }
  }

  // ---------------------------------------------------------------------
  // Keys, lengths and entries
  // ---------------------------------------------------------------------

  /** The result has one key per distinct entry of `platforms`, and no other. */
  lemma GeneratedKeys(idea: string, platforms: seq<string>, numPosts: int, tagsOption: string,
                      language: string, complete: Completion)
    ensures var g := Generated(idea, platforms, numPosts, tagsOption, language, complete);
      g.Some? ==> forall p :: p in g.value <==> p in platforms
  {
  }

  /** A platform the loop does not visit keeps its list. */
  lemma {:induction false} FillUntouched(posts: Posts, base: string, platforms: seq<string>, n: nat,
                                         complete: Completion, first: nat, p: string)
    requires forall q :: q in platforms ==> q in posts
    requires Fill(posts, base, platforms, n, complete, first).Some?
    requires p in posts && p !in platforms
    ensures Fill(posts, base, platforms, n, complete, first).value[p] == posts[p]
    decreases |platforms|
  {
    if platforms != [] {
      var platform := platforms[0];
      var b := Batch(PlatformRequest(base, platform), n, complete, first);
      var next := posts[platform := posts[platform] + b.value];
      assert p != platform;
      FillUntouched(next, base, platforms[1..], n, complete, first + n, p);
    }
  }

  /**
   * A platform's list grows by `n` entries for every time the platform
   * occurs in `platforms`: duplicates are visited once per occurrence.
   */
  lemma {:induction false} FillLengths(posts: Posts, base: string, platforms: seq<string>, n: nat,
                                       complete: Completion, first: nat)
    requires forall q :: q in platforms ==> q in posts
    requires Fill(posts, base, platforms, n, complete, first).Some?
    ensures var r := Fill(posts, base, platforms, n, complete, first).value;
      forall p :: p in posts ==> |r[p]| == |posts[p]| + Calls(multiset(platforms)[p], n)
    decreases |platforms|
  {
    if platforms != [] {
      var platform := platforms[0];
      var b := Batch(PlatformRequest(base, platform), n, complete, first);
      var next := posts[platform := posts[platform] + b.value];
      FillLengths(next, base, platforms[1..], n, complete, first + n);
      assert platforms == [platform] + platforms[1..];
      assert multiset(platforms) == multiset([platform]) + multiset(platforms[1..]);
      var r := Fill(posts, base, platforms, n, complete, first).value;
      forall p | p in posts
        ensures |r[p]| == |posts[p]| + Calls(multiset(platforms)[p], n)
      {
        var m := multiset(platforms[1..])[p];
        if p == platform {
          assert multiset(platforms)[p] == m + 1;
        } else {
          assert multiset(platforms)[p] == m;
        }
      }
    }
  }

  /**
   * With `num_posts` calls per platform, a platform that occurs `c` times in
   * `platforms` gets `c * num_posts` drafts (none when `num_posts <= 0`).
   */
  lemma GeneratedLengths(idea: string, platforms: seq<string>, numPosts: int, tagsOption: string,
                         language: string, complete: Completion)
    ensures var g := Generated(idea, platforms, numPosts, tagsOption, language, complete);
      g.Some? ==> forall p :: p in g.value ==> |g.value[p]| == multiset(platforms)[p] * RangeLength(numPosts)
  {
    var base := BasePrompt(idea, numPosts, tagsOption, language);
    var g := Generated(idea, platforms, numPosts, tagsOption, language, complete);
    if g.Some? {
      FillLengths(EmptyPosts(platforms), base, platforms, RangeLength(numPosts), complete, 0);
      forall p | p in g.value
        ensures |g.value[p]| == multiset(platforms)[p] * RangeLength(numPosts)
      {
        CallsProduct(multiset(platforms)[p], RangeLength(numPosts));
      }
    }
  }

  /** In a list without repeats every platform occurs once. */
  lemma {:induction false} DistinctOccursOnce(platforms: seq<string>, p: string)
    requires Distinct(platforms) && p in platforms
    ensures multiset(platforms)[p] == 1
  {
    assert platforms == [platforms[0]] + platforms[1..];
    assert multiset(platforms) == multiset([platforms[0]]) + multiset(platforms[1..]);
    DistinctTail(platforms);
    if p != platforms[0] {
      DistinctOccursOnce(platforms[1..], p);
    }
  }

  /** Without duplicate platforms, a successful run gives every platform exactly `num_posts` drafts. */
  lemma GeneratedLengthsDistinct(idea: string, platforms: seq<string>, numPosts: int, tagsOption: string,
                                 language: string, complete: Completion)
    requires Distinct(platforms)
    ensures var g := Generated(idea, platforms, numPosts, tagsOption, language, complete);
      g.Some? ==> forall p :: p in g.value ==> |g.value[p]| == RangeLength(numPosts)
  {
    var base := BasePrompt(idea, numPosts, tagsOption, language);
    var n := RangeLength(numPosts);
    var g := Generated(idea, platforms, numPosts, tagsOption, language, complete);
    if g.Some? {
      FillLengths(EmptyPosts(platforms), base, platforms, n, complete, 0);
      forall p | p in g.value
        ensures |g.value[p]| == n
      {
        DistinctOccursOnce(platforms, p);
        assert Calls(1, n) == n;
      }
    }
  }

  /**
   * Without duplicates, the platform at position `i` gets exactly the
   * batch of calls numbered `first + Calls(i, n)` onwards, appended in
   * call order.
   */
  lemma {:induction false} FillEntries(posts: Posts, base: string, platforms: seq<string>, n: nat,
                                       complete: Completion, first: nat, i: nat)
    requires forall q :: q in platforms ==> q in posts
    requires Distinct(platforms)
    requires Fill(posts, base, platforms, n, complete, first).Some?
    requires i < |platforms|
    ensures var r := Fill(posts, base, platforms, n, complete, first).value;
      var b := Batch(PlatformRequest(base, platforms[i]), n, complete, first + Calls(i, n));
      b.Some? && r[platforms[i]] == posts[platforms[i]] + b.value
    decreases |platforms|
  {
    var platform := platforms[0];
    var rest := platforms[1..];
    var b0 := Batch(PlatformRequest(base, platform), n, complete, first);
    var next := posts[platform := posts[platform] + b0.value];
    assert Fill(posts, base, platforms, n, complete, first) == Fill(next, base, rest, n, complete, first + n);
    DistinctTail(platforms);
    if i == 0 {
      assert Calls(0, n) == 0;
      FillUntouched(next, base, rest, n, complete, first + n, platform);
    } else {
      var p := platforms[i];
      assert p == rest[i - 1] && p in rest;
      FillEntries(next, base, rest, n, complete, first + n, i - 1);
      assert first + Calls(i, n) == first + n + Calls(i - 1, n);
      assert next[p] == posts[p];
    }
  }

  /** Dropping the first platform keeps the list free of repeats, and the first is not repeated. */
  lemma DistinctTail(platforms: seq<string>)
    requires Distinct(platforms) && platforms != []
    ensures Distinct(platforms[1..])
    ensures platforms[0] !in platforms[1..]
  {
    var rest := platforms[1..];
    forall a, c | 0 <= a < c < |rest|
      ensures rest[a] != rest[c]
    {
      assert rest[a] == platforms[a + 1] && rest[c] == platforms[c + 1];
    }
    forall k | 0 <= k < |rest|
      ensures rest[k] != platforms[0]
    {
      assert rest[k] == platforms[k + 1];
    }
  }

  /**
   * Without duplicates, entry `j` of the list of the platform at position
   * `i` is the stripped reply of call number `Calls(i, num_posts) + j`
   * (that is `i * num_posts + j`, by `CallsProduct`), which sent that
   * platform's request.
   */
  lemma GeneratedEntry(idea: string, platforms: seq<string>, numPosts: int, tagsOption: string,
                       language: string, complete: Completion, i: nat, j: nat)
    requires Distinct(platforms)
    requires Generated(idea, platforms, numPosts, tagsOption, language, complete).Some?
    requires i < |platforms| && j < RangeLength(numPosts)
    ensures Calls(i, RangeLength(numPosts)) + j < |CallPlan(idea, platforms, numPosts, tagsOption, language)|
    ensures platforms[i] in Generated(idea, platforms, numPosts, tagsOption, language, complete).value
    ensures j < |Generated(idea, platforms, numPosts, tagsOption, language, complete).value[platforms[i]]|
    ensures var request := PlatformRequest(BasePrompt(idea, numPosts, tagsOption, language), platforms[i]);
      var call := Calls(i, RangeLength(numPosts)) + j;
      && CallPlan(idea, platforms, numPosts, tagsOption, language)[call] == request
      && complete(call, request).Some?
      && Generated(idea, platforms, numPosts, tagsOption, language, complete).value[platforms[i]][j]
         == Strip(complete(call, request).value)
  {
    FillEntry(EmptyPosts(platforms), BasePrompt(idea, numPosts, tagsOption, language), platforms,
              RangeLength(numPosts), complete, i, j);
  }

  /** `GeneratedEntry` for any base prompt and call count, from empty lists. */
  lemma FillEntry(posts: Posts, base: string, platforms: seq<string>, n: nat, complete: Completion,
                  i: nat, j: nat)
    requires forall q :: q in platforms ==> q in posts && posts[q] == []
    requires Distinct(platforms)
    requires Fill(posts, base, platforms, n, complete, 0).Some?
    requires i < |platforms| && j < n
    ensures Calls(i, n) + j < |Plan(base, platforms, n)|
    ensures platforms[i] in Fill(posts, base, platforms, n, complete, 0).value
    ensures j < |Fill(posts, base, platforms, n, complete, 0).value[platforms[i]]|
    ensures var request := PlatformRequest(base, platforms[i]);
      var call := Calls(i, n) + j;
      && Plan(base, platforms, n)[call] == request
      && complete(call, request).Some?
      && Fill(posts, base, platforms, n, complete, 0).value[platforms[i]][j] == Strip(complete(call, request).value)
  {
    var request := PlatformRequest(base, platforms[i]);
    var list := Fill(posts, base, platforms, n, complete, 0).value[platforms[i]];
    FillEntries(posts, base, platforms, n, complete, 0, i);
    PlanAt(base, platforms, n, i, j);
    var first := 0 + Calls(i, n);
    var b := Batch(request, n, complete, first);
    assert list == [] + b.value;
    assert first + j - first == j;
  }

  /** Every stored draft is a stripped reply, so none has whitespace at either end. */
  lemma BatchTrimmed(request: Request, count: nat, complete: Completion, first: nat)
    requires Batch(request, count, complete, first).Some?
    ensures var drafts := Batch(request, count, complete, first).value;
      forall k :: 0 <= k < |drafts| ==> NoOuterSpace(drafts[k])
  {
    var drafts := Batch(request, count, complete, first).value;
    forall k | 0 <= k < |drafts|
      ensures NoOuterSpace(drafts[k])
    {
      var call := first + k;
      assert drafts[call - first] == Strip(complete(call, request).value);
      StripHasNoOuterSpace(complete(call, request).value);
    }
  }

  lemma {:induction false} FillTrimmed(posts: Posts, base: string, platforms: seq<string>, n: nat,
                                       complete: Completion, first: nat)
    requires forall q :: q in platforms ==> q in posts
    requires AllTrimmed(posts)
    requires Fill(posts, base, platforms, n, complete, first).Some?
    ensures AllTrimmed(Fill(posts, base, platforms, n, complete, first).value)
    decreases |platforms|
  {
    if platforms != [] {
      var platform := platforms[0];
      var request := PlatformRequest(base, platform);
      var drafts := Batch(request, n, complete, first).value;
      var next := posts[platform := posts[platform] + drafts];
      BatchTrimmed(request, n, complete, first);
      forall p, k | p in next && 0 <= k < |next[p]|
        ensures NoOuterSpace(next[p][k])
      {
        if p == platform && k >= |posts[p]| {
          assert next[p][k] == drafts[k - |posts[p]|];
        }
      }
      FillTrimmed(next, base, platforms[1..], n, complete, first + n);
    }
  }

  /** No draft in the result has leading or trailing whitespace. */
  lemma GeneratedTrimmed(idea: string, platforms: seq<string>, numPosts: int, tagsOption: string,
                         language: string, complete: Completion)
    requires Generated(idea, platforms, numPosts, tagsOption, language, complete).Some?
    ensures AllTrimmed(Generated(idea, platforms, numPosts, tagsOption, language, complete).value)
  {
    FillTrimmed(EmptyPosts(platforms), BasePrompt(idea, numPosts, tagsOption, language),
                platforms, RangeLength(numPosts), complete, 0);
  }

  // ---------------------------------------------------------------------
  // Edge cases
  // ---------------------------------------------------------------------

  /** With no platforms nothing is requested and the result is the empty mapping. */
  lemma NoPlatforms(idea: string, numPosts: int, tagsOption: string, language: string, complete: Completion)
    ensures CallPlan(idea, [], numPosts, tagsOption, language) == []
    ensures Generated(idea, [], numPosts, tagsOption, language, complete) == Some(map[])
  {
    assert EmptyPosts([]).Keys == {};
  }

  lemma {:induction false} FillNoCalls(posts: Posts, base: string, platforms: seq<string>,
                                       complete: Completion, first: nat)
    requires forall q :: q in platforms ==> q in posts
    ensures Plan(base, platforms, 0) == []
    ensures Fill(posts, base, platforms, 0, complete, first) == Some(posts)
    decreases |platforms|
  {
    if platforms != [] {
      var platform := platforms[0];
      assert platform in posts;
      assert posts[platform] + [] == posts[platform];
      assert posts[platform := posts[platform]] == posts;
      FillNoCalls(posts, base, platforms[1..], complete, first);
    }
  }

  /**
   * With `num_posts <= 0` the inner loop never runs: nothing is requested
   * and every platform keeps an empty list.
   */
  lemma NoPosts(idea: string, platforms: seq<string>, numPosts: int, tagsOption: string,
                language: string, complete: Completion)
    requires numPosts <= 0
    ensures CallPlan(idea, platforms, numPosts, tagsOption, language) == []
    ensures Generated(idea, platforms, numPosts, tagsOption, language, complete) == Some(EmptyPosts(platforms))
  {
    FillNoCalls(EmptyPosts(platforms), BasePrompt(idea, numPosts, tagsOption, language), platforms, complete, 0);
  }

  // ---------------------------------------------------------------------
  // Two worked examples
  // ---------------------------------------------------------------------

  /**
   * A platform listed twice gets one key and both passes' drafts, each
   * reply stripped.
   */
  lemma ExampleRepeatedPlatform()
    ensures Generated("launch", ["X", "X"], 1, "#ai", "English", (k: nat, r: Request) => Some(" draft\n"))
            == Some(map["X" := ["draft", "draft"]])
  {
    var reply := " draft\n";
    assert reply[..1] == " " && reply[1..6] == "draft" && reply[6..] == "\n";
    StripUnique(reply, 1, 6);
    var complete := (k: nat, r: Request) => Some(reply);
    var base := BasePrompt("launch", 1, "#ai", "English");
    var request := PlatformRequest(base, "X");
    var platforms := ["X", "X"];
    assert EmptyPosts(platforms) == map["X" := []];
    assert Strip(reply) == "draft";
    assert [] + [Strip(reply)] == ["draft"];
    assert complete(0, request) == Some(reply) && complete(1, request) == Some(reply);
    assert Batch(request, 0, complete, 0) == Some([]) && Batch(request, 0, complete, 1) == Some([]);
    assert Batch(request, 1, complete, 0) == Some(["draft"]);
    assert Batch(request, 1, complete, 1) == Some(["draft"]);
    assert platforms[1..] == ["X"] && platforms[1..][1..] == [];
    var none: Posts := map["X" := []];
    var once: Posts := map["X" := ["draft"]];
    var twice: Posts := map["X" := ["draft", "draft"]];
    assert none["X" := none["X"] + ["draft"]] == once;
    assert once["X"] + ["draft"] == ["draft", "draft"];
    assert once["X" := once["X"] + ["draft"]] == twice;
    assert Fill(none, base, platforms, 1, complete, 0) == Fill(once, base, ["X"], 1, complete, 1);
    assert Fill(once, base, ["X"], 1, complete, 1) == Fill(twice, base, [], 1, complete, 2);
  }

  /**
   * No partial result: the draft already made for "Instagram" is lost when
   * the call for "LinkedIn" fails.
   */
  lemma ExampleFailureLosesEverything()
    ensures Generated("launch", ["Instagram", "LinkedIn"], 1, "", "English",
                      (k: nat, r: Request) => if k == 0 then Some("ok") else None) == None
  {
  }
}
