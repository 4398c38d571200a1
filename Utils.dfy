/** The two pure helpers of the shared utility file: cleaning and parsing a
    language-model reply that should be a JSON object, and the initials
    shown in an avatar. */
module Utils {
  import opened JsValues

  function StartsWith(s: string, p: string): bool
  {
    |p| <= |s| && s[..|p|] == p
  }

  function EndsWith(s: string, p: string): bool
  {
    |p| <= |s| && s[|s| - |p|..] == p
  }

  const Fence := "```"

  /** What may follow the opening fence and is removed with it. */
  const FenceTags: seq<string> := ["json\n", "json", "\n", ""]

  /** The greedy match of `(?:json)?\n?` at the start of `a`: the longest
      of the removable tags that `a` starts with. */
  function FenceTag(a: string): (t: string)
    ensures t in FenceTags && StartsWith(a, t)
    ensures forall u :: u in FenceTags && StartsWith(a, u) ==> |u| <= |t|
  {
    if StartsWith(a, "json\n") then "json\n"
    else if StartsWith(a, "json") then "json"
    else if StartsWith(a, "\n") then "\n"
    else ""
  }

  /** `replace(/^```(?:json)?\n?/, '')`: the opening fence, then an optional
      `json` tag, then an optional newline. */
  function StripLeadingFence(s: string): (r: string)
    ensures StartsWith(s, Fence) ==> |r| < |s|
    ensures !StartsWith(s, Fence) ==> r == s
  {
    if !StartsWith(s, Fence) then s
    else
      var a := s[3..];
      var b := if StartsWith(a, "json") then a[4..] else a;
      if StartsWith(b, "\n") then b[1..] else b
  }

  /** Exactly the fence and the greedy tag after it are removed: what
      remains is the rest of the text, unchanged. */
  lemma LeadingFenceRemoved(s: string)
    requires StartsWith(s, Fence)
    ensures s == Fence + FenceTag(s[3..]) + StripLeadingFence(s)
  {
    var a := s[3..];
    var t := FenceTag(a);
    StripAfterFence(s);
    assert a == t + a[|t|..] by { assert a[..|t|] == t; }
    assert s == Fence + a by { assert s[..3] == Fence; }
  }

  /** The text after the fence loses exactly its greedy tag. */
  lemma StripAfterFence(s: string)
    requires StartsWith(s, Fence)
    ensures StripLeadingFence(s) == s[3..][|FenceTag(s[3..])|..]
  {
    var a := s[3..];
    if StartsWith(a, "json\n") {
      assert a[..4] == a[..5][..4];
      assert a[4..][..1] == a[..5][4..];
    } else if StartsWith(a, "json") {
      assert !StartsWith(a[4..], "\n") by {
        if |a| >= 5 {
          assert a[..5] == a[..4] + a[4..][..1];
        }
      }
    }
  }


  /** `replace(/```$/, '')`: a closing fence at the very end. */
  function StripTrailingFence(s: string): (r: string)
    ensures EndsWith(s, Fence) ==> r + Fence == s
    ensures !EndsWith(s, Fence) ==> r == s
  {
    if EndsWith(s, Fence) then s[..|s| - 3] else s
  }

  /** The text `parseAiJsonResponse` hands to `JSON.parse`: the trimmed
      reply and, only when that starts with a fence, the fences removed and
      the rest trimmed again. */
  function CleanReply(raw: string): (r: string)
    ensures IsTrimmed(r)
    ensures !StartsWith(Trim(raw), Fence) ==> r == Trim(raw)
  {
    var t := Trim(raw);
    if StartsWith(t, Fence) then Trim(StripTrailingFence(StripLeadingFence(t))) else t
  }

  const NotValidJson := "AI response was not valid JSON."

  /** `JSON.parse` succeeded and gave a non-null, non-array object. */
  predicate ParsesToObject(p: Option<Value>)
  {
    p.Some? && p.value.Obj?
  }

  /** `parseAiJsonResponse(raw, ignoreFormat)`; `parse` is `JSON.parse`
      (`None` when it throws). */
  function ParseAiJsonResponse(raw: Value, ignoreFormat: bool, parse: string -> Option<Value>): (r: Result<Value>)
    ensures !raw.Str? ==> r == Err("Expected a string from AI, got " + TypeOf(raw))
    ensures raw.Str? && ParsesToObject(parse(CleanReply(raw.s))) ==> r == Ok(parse(CleanReply(raw.s)).value)
    ensures raw.Str? && !ParsesToObject(parse(CleanReply(raw.s))) ==>
      r == (if ignoreFormat then Ok(Str(CleanReply(raw.s))) else Err(NotValidJson))
  {
    if !raw.Str? then Err("Expected a string from AI, got " + TypeOf(raw))
    else
      var cleaned := CleanReply(raw.s);
      var parsed := parse(cleaned);
      if ParsesToObject(parsed) then Ok(parsed.value)
      else if ignoreFormat then Ok(Str(cleaned))
      else Err(NotValidJson)
  }

  lemma LeadingJsonFence(x: string)
    ensures StripLeadingFence("```json\n" + x) == x
  {
    var s := "```json\n" + x;
    assert s[..3] == Fence;
    var a := s[3..];
    assert a == "json\n" + x;
    assert a[..4] == "json";
    var b := a[4..];
    assert b == "\n" + x;
    assert b[..1] == "\n";
    assert b[1..] == x;
  }

  lemma TrailingFence(y: string)
    ensures StripTrailingFence(y + Fence) == y
  {
    var s := y + Fence;
    assert s[|s| - 3..] == Fence;
    assert s[..|s| - 3] == y;
  }

  /** A JSON text wrapped in a ```json fence, as models often reply. */
  function Wrapped(body: string): string
  {
    "```json\n" + body + "\n```"
  }

  lemma WrappedShape(body: string)
    ensures Wrapped(body) == "```json\n" + ((body + "\n") + Fence)
    ensures IsTrimmed(Wrapped(body)) && StartsWith(Wrapped(body), Fence)
  {
    var w := Wrapped(body);
    assert w[0] == '`' && w[|w| - 1] == '`';
    assert w[..3] == Fence;
  }

  /** Cleaning sees only the trimmed reply: whitespace around a trimmed
      text changes nothing. */
  lemma CleanSurrounded(pre: string, s: string, post: string)
    requires AllSpace(pre) && AllSpace(post) && IsTrimmed(s)
    ensures CleanReply(pre + s + post) == CleanReply(s)
  {
    TrimSurrounded(pre, s, post);
    TrimSurrounded([], s, []);
    assert [] + s + [] == s;
    SameTrimSameClean(pre + s + post, s);
  }

  lemma SameTrimSameClean(a: string, b: string)
    requires Trim(a) == Trim(b)
    ensures CleanReply(a) == CleanReply(b)
  {
  }

  /** The fenced text is cleaned to exactly the JSON text inside. */
  lemma CleanWrapped(body: string)
    requires IsTrimmed(body)
    ensures CleanReply(Wrapped(body)) == body
  {
    var w := Wrapped(body);
    WrappedShape(body);
    TrimSurrounded([], w, []);
    assert [] + w + [] == w;
    LeadingJsonFence((body + "\n") + Fence);
    TrailingFence(body + "\n");
    TrimSurrounded([], body, "\n");
    assert [] + body + "\n" == body + "\n";
  }

  /** A reply wrapped in a ```json fence, with any whitespace around it,
      is cleaned to exactly the JSON text inside. */
  lemma FencedReplyCleaned(pre: string, body: string, post: string)
    requires AllSpace(pre) && AllSpace(post) && IsTrimmed(body)
    ensures CleanReply(pre + Wrapped(body) + post) == body
  {
    WrappedShape(body);
    CleanSurrounded(pre, Wrapped(body), post);
    CleanWrapped(body);
  }

  /** So a fenced object is accepted exactly as the bare object would be. */
  lemma FencedObjectAccepted(body: string, ignoreFormat: bool, parse: string -> Option<Value>)
    requires IsTrimmed(body) && !StartsWith(body, Fence)
    ensures ParseAiJsonResponse(Str(Wrapped(body)), ignoreFormat, parse)
         == ParseAiJsonResponse(Str(body), ignoreFormat, parse)
  {
    CleanWrapped(body);
    TrimSurrounded([], body, []);
    assert [] + body + [] == body;
    SameCleanSameResult(Wrapped(body), body, ignoreFormat, parse);
  }

  lemma SameCleanSameResult(a: string, b: string, ignoreFormat: bool, parse: string -> Option<Value>)
    requires CleanReply(a) == CleanReply(b)
    ensures ParseAiJsonResponse(Str(a), ignoreFormat, parse) == ParseAiJsonResponse(Str(b), ignoreFormat, parse)
  {
  }

  // ---------------------------------------------------------------------
  // getInitials

  /** Where the word starting at `i` ends: the first whitespace at or after
      `i`, or the end. */
  function WordEnd(s: string, i: nat): (e: nat)
    requires i <= |s|
    ensures i <= e <= |s|
    ensures forall k :: i <= k < e ==> !IsSpace(s[k])
    ensures e < |s| ==> IsSpace(s[e])
    decreases |s| - i
  {
    if i < |s| && !IsSpace(s[i]) then WordEnd(s, i + 1) else i
  }

  /** Where the word ending at `e` starts: just after the last whitespace
      before `e`, or 0. */
  function WordStart(s: string, e: nat): (b: nat)
    requires e <= |s|
    ensures b <= e
    ensures forall k :: b <= k < e ==> !IsSpace(s[k])
    ensures b > 0 ==> IsSpace(s[b - 1])
  {
    if e > 0 && !IsSpace(s[e - 1]) then WordStart(s, e - 1) else e
  }

  /** `s.slice(i).split(/\s+/)`: the pieces between maximal runs of
      whitespace, from index `i` on. */
  function SplitFrom(s: string, i: nat): (words: seq<string>)
    requires i <= |s|
    ensures |words| >= 1
    ensures forall k :: 0 <= k < |words| ==> NoSpace(words[k])
    decreases |s| - i
  {
    var e := WordEnd(s, i);
    if e == |s| then [s[i..]]
    else [s[i..e]] + SplitFrom(s, TrimStart(s, e))
  }

  /** `s.split(/\s+/)`. */
  function SplitWs(s: string): (words: seq<string>)
    ensures |words| >= 1
  {
    SplitFrom(s, 0)
  }

  /** The first piece runs up to the first whitespace, and there is only
      one piece exactly when there is no whitespace. */
  lemma SplitFirst(s: string)
    ensures SplitWs(s)[0] == s[..WordEnd(s, 0)]
    ensures |SplitWs(s)| == 1 <==> NoSpace(s)
  {
    var e := WordEnd(s, 0);
    if e < |s| {
      assert !NoSpace(s) by { assert IsSpace(s[e]); }
    }
  }

  /** The last piece is the text after the last whitespace (and after `i`). */
  lemma {:induction false} SplitLast(s: string, i: nat)
    requires i <= |s|
    ensures var words := SplitFrom(s, i);
      var b := WordStart(s, |s|);
      words[|words| - 1] == s[if i < b then b else i..]
    decreases |s| - i
  {
    var e := WordEnd(s, i);
    var b := WordStart(s, |s|);
    if e == |s| {
      assert forall k :: i <= k < |s| ==> !IsSpace(s[k]);
    } else {
      var j := TrimStart(s, e);
      assert e < b by { assert IsSpace(s[e]); }
      assert j <= b by {
        assert b < |s| ==> !IsSpace(s[b]);
      }
      SplitLast(s, j);
      var rest := SplitFrom(s, j);
      assert rest[|rest| - 1] == s[b..];
      LastOfCons(s[i..e], rest);
    }
  }

  lemma LastOfCons<T>(x: T, xs: seq<T>)
    requires xs != []
    ensures ([x] + xs)[|xs|] == xs[|xs| - 1]
  {
  }

  const TypeErrorToUpperCase := "(words[0][0] + (words[0][1] || words[0][0])).toUpperCase is not a function"

  /** The two characters `getInitials` picks from the pieces of a name: the
      first piece's first character and its second (or the first again)
      when there is one piece, else the first characters of the first and
      last pieces. */
  function PickInitials(words: seq<string>): (r: string)
    requires |words| >= 1 && words[0] != "" && words[|words| - 1] != ""
    ensures |r| == 2
  {
    var first := words[0];
    var last := words[|words| - 1];
    if |words| == 1 then [first[0], if |first| >= 2 then first[1] else first[0]]
    else [first[0], last[0]]
  }

  /** `getInitials(name)` as written; `None` stands for `undefined`/`null`.
      A name of whitespace only is truthy, trims to "", splits to [""], and
      `undefined + undefined` has no `toUpperCase`: it throws. */
  function GetInitials(name: Option<string>): (r: Result<string>)
    ensures name.None? || name == Some("") ==> r == Ok("??")
    ensures r.Ok? ==> |r.value| == 2
    ensures r.Err? <==> name.Some? && name.value != "" && Trim(name.value) == ""
  {
    if name.None? || name.value == "" then Ok("??")
    else
      var t := Trim(name.value);
      var words := SplitWs(t);
      if t == "" then Err(TypeErrorToUpperCase)
      else
        TrimmedEnds(t);
        Ok(ToUpper(PickInitials(words)))
  }

  /** Of a trimmed, non-empty string, the first and last pieces are not empty. */
  lemma TrimmedEnds(t: string)
    requires t != "" && IsTrimmed(t)
    ensures SplitWs(t)[0] != "" && SplitWs(t)[|SplitWs(t)| - 1] != ""
    ensures WordStart(t, |t|) < |t|
  {
    SplitFirst(t);
    SplitLast(t, 0);
    assert WordEnd(t, 0) > 0;
  }

  /** The initials a trimmed, non-empty name should get, stated on the name
      itself rather than on its split: the first character and, with no
      whitespace inside, the second character (or the first again), else
      the character just after the last whitespace. */
  function InitialsOf(t: string): (r: string)
    requires t != "" && IsTrimmed(t)
    ensures |r| == 2 && r[0] == t[0]
  {
    TrimmedEnds(t);
    if NoSpace(t) then [t[0], if |t| >= 2 then t[1] else t[0]]
    else [t[0], t[WordStart(t, |t|)]]
  }

  /** `getInitials` on a name that is not blank gives the upper-cased
      `InitialsOf` its trimmed text. */
  lemma InitialsOfName(name: string)
    requires Trim(name) != ""
    ensures GetInitials(Some(name)) == Ok(ToUpper(InitialsOf(Trim(name))))
  {
    PickedFromText(Trim(name));
  }

  /** Picking from the split pieces gives `InitialsOf` the text. */
  lemma PickedFromText(t: string)
    requires t != "" && IsTrimmed(t)
    ensures var words := SplitWs(t);
      words[0] != "" && words[|words| - 1] != "" && PickInitials(words) == InitialsOf(t)
  {
    TrimmedEnds(t);
    SplitFirst(t);
    SplitLast(t, 0);
    assert WordEnd(t, 0) > 0;
    if !NoSpace(t) {
      assert WordStart(t, |t|) > 0 by {
        var k :| 0 <= k < |t| && IsSpace(t[k]);
      }
    }
  }

  /** `getInitials` as evidently intended: a name with no visible character
      shows the "??" placeholder instead of throwing; every other name gets
      the initials the code as written computes. */
  function GetInitialsFixed(name: Option<string>): (r: string)
    ensures |r| == 2
    ensures name.None? || Trim(name.value) == "" ==> r == "??"
    ensures GetInitials(name).Ok? ==> r == GetInitials(name).value
  {
    match GetInitials(name)
    case Ok(initials) => initials
    case Err(_) => "??"
  }

  /** The input that shows the discrepancy: a name of blanks only. */
  lemma BlankNameThrows()
    ensures GetInitials(Some(" ")).Err?
    ensures GetInitialsFixed(Some(" ")) == "??"
  {
    assert Trim(" ") == "" by { TrimSurrounded(" ", "", ""); assert " " + "" + "" == " "; }
  }
}
