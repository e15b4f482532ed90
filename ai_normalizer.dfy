/**
 * The response normaliser of the AI helper: code fences are stripped from a model reply, the rest is
 * trimmed, prose is replaced by a fixed empty skeleton, and a parse failure falls back to a default.
 * `JSON.parse` is the uninterpreted oracle `parse`; the chat completion is its reply value.
 */
module AiNormalizer {
  import opened Base
  import opened Text
  import opened ParaTypes

  const Fence: string := "```"
  const JsonFence: string := "```json"

  /** `"key": []`: one empty list of a skeleton. */
  function EmptyList(key: string): string {
    "\"" + key + "\": []"
  }

  /** The skeleton returned for prose that talks about PARA or projects:
      `{"projects": [], "areas": [], "resources": [], "archives": []}`. */
  const ParaSkeleton: string :=
    "{" + EmptyList("projects") + ", " + EmptyList("areas") + ", " + EmptyList("resources") + ", "
    + EmptyList("archives") + "}"
  /** The skeleton returned for any other prose: `{"tasks": []}`. */
  const TasksSkeleton: string := "{" + EmptyList("tasks") + "}"

  /**
   * `s.replace(/<fence>\s*\/g, '')`: scanning left to right, every occurrence of `fence` is removed
   * together with the run of whitespace that follows it, and scanning resumes after that run.
   */
  function StripFences(s: string, fence: string): (r: string)
    requires fence != []
    ensures |r| <= |s|
    decreases |s|
  {
    if s == [] then []
    else if StartsWith(s, fence) then
      TrimStartIsSuffix(s[|fence|..]);
      StripFences(TrimStart(s[|fence|..]), fence)
    else [s[0]] + StripFences(s[1..], fence)
  }

  /** Both replace passes, before trimming. */
  function Unfenced(content: string): string {
    StripFences(StripFences(content, JsonFence), Fence)
  }

  /** Position `i` of `s` starts a "```". */
  predicate FenceAt(s: string, i: int) {
    0 <= i && i + 3 <= |s| && s[i] == '`' && s[i + 1] == '`' && s[i + 2] == '`'
  }

  /** `s` holds no "```" anywhere. */
  predicate FenceFree(s: string) {
    forall i :: 0 <= i < |s| ==> !FenceAt(s, i)
  }

  /**
   * cleanJsonResponse: the unfenced, trimmed reply when it starts with `{`; otherwise one of the two
   * skeletons, chosen by the raw reply. Whatever the reply, the result starts with `{`, carries no
   * code fence and has no surrounding whitespace.
   */
  function CleanJsonResponse(content: string): (r: string)
    ensures |r| > 0 && r[0] == '{'
    ensures FenceFree(r)
    ensures !IsSpace(r[0]) && !IsSpace(r[|r| - 1])
  {
    var cleaned := Trim(Unfenced(content));
    TrimIsSlice(Unfenced(content));
    CleanedIsFenceFree(content);
    SkeletonsAreClean();
    if StartsWith(cleaned, "{") then cleaned
    else if Contains(ToLower(content), "para") || Contains(ToLower(content), "project") then ParaSkeleton
    else TasksSkeleton
  }

  /** The trimmed, unfenced reply holds no fence. */
  lemma CleanedIsFenceFree(content: string)
    ensures FenceFree(Trim(Unfenced(content)))
  {
    var u := Unfenced(content);
    NoFenceLeft(StripFences(content, JsonFence));
    var a := |u| - |TrimStart(u)|;
    TrimIsSlice(u);
    forall i | 0 <= i < |Trim(u)| ensures !FenceAt(Trim(u), i) {
      if FenceAt(Trim(u), i) {
        assert FenceAt(u, a + i);
      }
    }
  }

  /** Both skeletons are objects without fences or surrounding whitespace. */
  lemma SkeletonsAreClean()
    ensures |ParaSkeleton| > 0 && ParaSkeleton[0] == '{' && ParaSkeleton[|ParaSkeleton| - 1] == '}'
    ensures |TasksSkeleton| > 0 && TasksSkeleton[0] == '{' && TasksSkeleton[|TasksSkeleton| - 1] == '}'
    ensures FenceFree(ParaSkeleton) && FenceFree(TasksSkeleton)
  {
    EmptyListTickless("projects");
    EmptyListTickless("areas");
    EmptyListTickless("resources");
    EmptyListTickless("archives");
    EmptyListTickless("tasks");
    NoBacktickFenceFree(ParaSkeleton);
    NoBacktickFenceFree(TasksSkeleton);
  }

  /** safeJsonParse: the parse of the cleaned reply, or `fallback` when it does not parse. */
  function SafeJsonParse<T>(content: string, fallback: T, parse: string -> Option<T>): (r: T)
    ensures parse(CleanJsonResponse(content)).None? ==> r == fallback
    ensures parse(CleanJsonResponse(content)).Some? ==> r == parse(CleanJsonResponse(content)).value
  {
    match parse(CleanJsonResponse(content))
    case Some(v) => v
    case None => fallback
  }

  /** What the chat completion call gave back: a thrown error, or the first choice's content ("" for none). */
  datatype Completion = CompletionFailed | Completion(content: string)

  /**
   * extractParaFromChat after the completion call: an empty PARA record when the call failed or the
   * reply does not parse; a reply without content is read as the empty object `{}`.
   */
  function ExtractParaFromChat(reply: Completion, parse: string -> Option<ParaData>): (r: ParaData)
    ensures reply.CompletionFailed? ==> r == EmptyPara
    ensures reply == Completion("") ==> (parse("{}").None? ==> r == EmptyPara) && (parse("{}").Some? ==> r == parse("{}").value)
    ensures reply.Completion? && reply.content != "" ==> r == SafeJsonParse(reply.content, EmptyPara, parse)
  {
    EmptyObjectIsClean();
    match reply
    case CompletionFailed => EmptyPara
    case Completion(content) => SafeJsonParse(if content == "" then "{}" else content, EmptyPara, parse)
  }

  // ---------------------------------------------------------------------------------------------
  // Substrings

  /** A skeleton entry has a backtick only if its key does. */
  lemma EmptyListTickless(key: string)
    requires '`' !in key
    ensures '`' !in EmptyList(key)
  {
  }

  /** A text without a backtick holds no fence. */
  lemma NoBacktickFenceFree(s: string)
    requires '`' !in s
    ensures FenceFree(s)
  {
    forall i | 0 <= i < |s| ensures !FenceAt(s, i) {
      assert s[i] in s;
    }
  }

  /** A fence-free text holds no occurrence of a text that starts with a fence. */
  lemma {:induction false} FenceFreeNoOccurrence(s: string, f: string)
    requires |f| >= 3 && f[0] == '`' && f[1] == '`' && f[2] == '`' && FenceFree(s)
    ensures !Contains(s, f)
    decreases |s|
  {
    if |f| <= |s| {
      assert s[..|f|][0] == s[0] && s[..|f|][1] == s[1] && s[..|f|][2] == s[2];
      assert !FenceAt(s, 0);
    }
    if s != [] {
      forall i | 0 <= i < |s[1..]| ensures !FenceAt(s[1..], i) {
        if FenceAt(s[1..], i) {
          assert FenceAt(s, i + 1);
        }
      }
      FenceFreeNoOccurrence(s[1..], f);
    }
  }

  /** Stripping leaves a text without occurrences unchanged. */
  lemma {:induction false} StripWithoutFence(s: string, fence: string)
    requires fence != [] && !Contains(s, fence)
    ensures StripFences(s, fence) == s
    decreases |s|
  {
    if s != [] {
      StripWithoutFence(s[1..], fence);
    }
  }

  // ---------------------------------------------------------------------------------------------
  // The second pass leaves no fence behind

  /** A stripped text that starts with a backtick comes from a text that does. */
  lemma {:induction false} HeadBacktick(t: string)
    requires var r := StripFences(t, Fence); r != [] && r[0] == '`'
    ensures t != [] && t[0] == '`'
  {
  }

  /** A stripped text that starts with two backticks comes from a text that does. */
  lemma HeadTwoBackticks(t: string)
    requires var r := StripFences(t, Fence); |r| >= 2 && r[0] == '`' && r[1] == '`'
    ensures |t| >= 2 && t[0] == '`' && t[1] == '`'
  {
    if !StartsWith(t, Fence) {
      assert StripFences(t, Fence) == [t[0]] + StripFences(t[1..], Fence);
      HeadBacktick(t[1..]);
    } else {
      assert t[..3][0] == t[0] && t[..3][1] == t[1];
    }
  }

  /** After the "```" pass no "```" is left: removals never join backticks into a new fence. */
  lemma {:induction false} NoFenceLeft(t: string)
    ensures FenceFree(StripFences(t, Fence))
    decreases |t|
  {
    if t != [] {
      if StartsWith(t, Fence) {
        TrimStartIsSuffix(t[|Fence|..]);
        NoFenceLeft(TrimStart(t[|Fence|..]));
      } else {
        var rest := StripFences(t[1..], Fence);
        var r := StripFences(t, Fence);
        NoFenceLeft(t[1..]);
        assert r == [t[0]] + rest;
        forall i | 0 <= i < |r| ensures !FenceAt(r, i) {
          if i > 0 && FenceAt(r, i) {
            assert FenceAt(rest, i - 1);
          }
          if i == 0 && FenceAt(r, i) {
            HeadTwoBackticks(t[1..]);
          }
        }
      }
    }
  }

  // ---------------------------------------------------------------------------------------------
  // Properties of the normaliser

  /** A reply that is already an object without fences or surrounding whitespace is kept as it is. */
  lemma CleanKeepsClean(content: string)
    requires |content| > 0 && content[0] == '{' && FenceFree(content)
    requires !IsSpace(content[|content| - 1])
    ensures CleanJsonResponse(content) == content
  {
    FenceFreeNoOccurrence(content, JsonFence);
    StripWithoutFence(content, JsonFence);
    FenceFreeNoOccurrence(content, Fence);
    StripWithoutFence(content, Fence);
    TrimOfTrimmed(content);
    assert StartsWith(Trim(Unfenced(content)), "{");
  }

  /** A reply without backticks that trims to an object is returned trimmed and otherwise untouched. */
  lemma CleanKeepsBareObject(content: string)
    requires '`' !in content && StartsWith(Trim(content), "{")
    ensures CleanJsonResponse(content) == Trim(content)
  {
    NoBacktickFenceFree(content);
    FenceFreeNoOccurrence(content, JsonFence);
    StripWithoutFence(content, JsonFence);
    FenceFreeNoOccurrence(content, Fence);
    StripWithoutFence(content, Fence);
  }

  /** The empty object is already clean. */
  lemma EmptyObjectIsClean()
    ensures CleanJsonResponse("{}") == "{}"
  {
    NoBacktickFenceFree("{}");
    CleanKeepsClean("{}");
  }

  /** Cleaning a cleaned reply changes nothing. */
  lemma CleanIdempotent(content: string)
    ensures CleanJsonResponse(CleanJsonResponse(content)) == CleanJsonResponse(content)
  {
    CleanKeepsClean(CleanJsonResponse(content));
  }

  /** Lower-casing keeps an occurrence, lower-cased. */
  lemma {:induction false} ContainsLowered(s: string, sub: string)
    requires Contains(s, sub)
    ensures Contains(ToLower(s), ToLower(sub))
    decreases |s|
  {
    if StartsWith(s, sub) {
      assert ToLower(s)[..|sub|] == ToLower(sub);
    } else {
      ContainsLowered(s[1..], sub);
      assert ToLower(s)[1..] == ToLower(s[1..]);
    }
  }

  /** Prose that mentions a project, in any letter case, gets the PARA skeleton. */
  lemma ProseAboutProjects(content: string, word: string)
    requires !StartsWith(Trim(Unfenced(content)), "{")
    requires Contains(content, word) && ToLower(word) == "project"
    ensures CleanJsonResponse(content) == ParaSkeleton
  {
    ContainsLowered(content, word);
  }

  /** The two skeletons differ. */
  lemma SkeletonsDiffer()
    ensures ParaSkeleton != TasksSkeleton
  {
    assert ParaSkeleton[2] == 'p' && TasksSkeleton[2] == 't';
  }

  /**
   * For prose, the PARA skeleton is chosen exactly when the lower-cased raw reply mentions "para" or
   * "project"; otherwise the tasks skeleton is.
   */
  lemma ProseSkeletonChoice(content: string)
    requires !StartsWith(Trim(Unfenced(content)), "{")
    ensures CleanJsonResponse(content) == ParaSkeleton
      <==> Contains(ToLower(content), "para") || Contains(ToLower(content), "project")
    ensures CleanJsonResponse(content) == TasksSkeleton
      <==> !Contains(ToLower(content), "para") && !Contains(ToLower(content), "project")
  {
    SkeletonsDiffer();
  }

  /** Prose that mentions PARA, in any letter case, gets the PARA skeleton. */
  lemma ProseAboutPara(content: string, word: string)
    requires !StartsWith(Trim(Unfenced(content)), "{")
    requires Contains(content, word) && ToLower(word) == "para"
    ensures CleanJsonResponse(content) == ParaSkeleton
  {
    ContainsLowered(content, word);
  }

  /** Stripping passes over a prefix in which no occurrence of the fence starts. */
  lemma {:induction false} StripKeepsPrefix(x: string, y: string, fence: string)
    requires fence != []
    requires forall i :: 0 <= i < |x| ==> !StartsWith((x + y)[i..], fence)
    ensures StripFences(x + y, fence) == x + StripFences(y, fence)
    decreases |x|
  {
    if x == [] {
      assert x + y == y;
    } else {
      assert !StartsWith((x + y)[0..], fence);
      assert (x + y)[1..] == x[1..] + y;
      forall i | 0 <= i < |x[1..]| ensures !StartsWith((x[1..] + y)[i..], fence) {
        assert (x[1..] + y)[i..] == (x + y)[i + 1..];
      }
      StripKeepsPrefix(x[1..], y, fence);
    }
  }

  /** White space in front of an object is what a `\s*` after a fence consumes. */
  lemma {:induction false} TrimStartSpaces(w: string, s: string)
    requires forall i :: 0 <= i < |w| ==> IsSpace(w[i])
    requires s != [] && !IsSpace(s[0])
    ensures TrimStart(w + s) == s
    decreases |w|
  {
    if w == [] {
      assert w + s == s;
    } else {
      assert (w + s)[1..] == w[1..] + s;
      TrimStartSpaces(w[1..], s);
    }
  }

  /** White space after an object is removed by the trim. */
  lemma {:induction false} TrimEndSpaces(s: string, w: string)
    requires forall i :: 0 <= i < |w| ==> IsSpace(w[i])
    requires s != [] && !IsSpace(s[|s| - 1])
    ensures TrimEnd(s + w) == s
    decreases |w|
  {
    if w == [] {
      assert s + w == s;
    } else {
      assert (s + w)[..|s + w| - 1] == s + w[..|w| - 1];
      TrimEndSpaces(s, w[..|w| - 1]);
    }
  }

  /**
   * In an object followed by white space and a closing fence, no fence starts before the closing one:
   * the object holds none, it ends with `}`, and white space is not a backtick.
   */
  lemma ClosingFenceOnly(obj: string, w: string, fence: string)
    requires |obj| > 0 && obj[|obj| - 1] == '}' && FenceFree(obj)
    requires forall i :: 0 <= i < |w| ==> IsSpace(w[i])
    requires |fence| >= 3 && fence[0] == '`' && fence[1] == '`' && fence[2] == '`'
    ensures forall i :: 0 <= i < |obj + w| ==> !StartsWith(((obj + w) + Fence)[i..], fence)
  {
    var s := (obj + w) + Fence;
    forall i | 0 <= i < |obj + w| ensures !StartsWith(s[i..], fence) {
      if i >= |obj| {
        assert s[i] == w[i - |obj|] && IsSpace(s[i]);
      } else if i + 2 < |obj| {
        assert !FenceAt(obj, i);
        assert s[i] == obj[i] && s[i + 1] == obj[i + 1] && s[i + 2] == obj[i + 2];
      } else if i + 1 == |obj| {
        assert s[i] == '}';
      } else {
        assert s[i + 1] == '}';
      }
      assert !FenceAt(s, i);
      NoFenceNoStart(s, i, fence);
    }
  }

  /** Where no "```" starts, no text that begins with "```" starts either. */
  lemma NoFenceNoStart(s: string, i: int, fence: string)
    requires 0 <= i <= |s| && !FenceAt(s, i)
    requires |fence| >= 3 && fence[0] == '`' && fence[1] == '`' && fence[2] == '`'
    ensures !StartsWith(s[i..], fence)
  {
    if |fence| <= |s[i..]| {
      var p := s[i..][..|fence|];
      assert p[0] == s[i] && p[1] == s[i + 1] && p[2] == s[i + 2];
    }
  }

  /**
   * The usual model reply, an object wrapped in a "```json" fence with white space around it, comes
   * back as the object itself.
   */
  lemma FencedObjectUnwrapped(obj: string, w1: string, w2: string)
    requires |obj| > 0 && obj[0] == '{' && obj[|obj| - 1] == '}' && FenceFree(obj)
    requires forall i :: 0 <= i < |w1| ==> IsSpace(w1[i])
    requires forall i :: 0 <= i < |w2| ==> IsSpace(w2[i])
    ensures CleanJsonResponse(JsonFence + w1 + obj + w2 + Fence) == obj
  {
    var c := JsonFence + w1 + obj + w2 + Fence;
    var tail := (obj + w2) + Fence;
    assert c[..|JsonFence|] == JsonFence;
    assert c[|JsonFence|..] == w1 + tail;
    TrimStartSpaces(w1, tail);
    ClosingFenceOnly(obj, w2, JsonFence);
    StripKeepsPrefix(obj + w2, Fence, JsonFence);
    assert StripFences(Fence, JsonFence) == Fence;
    assert StripFences(c, JsonFence) == tail;
    ClosingFenceOnly(obj, w2, Fence);
    StripKeepsPrefix(obj + w2, Fence, Fence);
    assert StripFences(Fence, Fence) == [];
    assert Unfenced(c) == obj + w2;
    TrimStartSpaces([], obj + w2);
    TrimEndSpaces(obj, w2);
    assert Trim(Unfenced(c)) == obj;
    assert StartsWith(obj, "{");
  }

  /** Prose that mentions neither PARA nor projects gets the tasks skeleton. */
  lemma ProseOtherwise(content: string)
    requires !StartsWith(Trim(Unfenced(content)), "{")
    requires !Contains(ToLower(content), "para") && !Contains(ToLower(content), "project")
    ensures CleanJsonResponse(content) == TasksSkeleton
  {
  }
}
