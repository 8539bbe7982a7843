/** `clean_deepseek_reasoning_output` (agents/nodes/llm_provider.py): cutting the JSON
    object out of the reply of a reasoning model. */
module ReasoningCleaner {
  import opened Wrappers

  const OPEN := "<think>"
  const CLOSE := "</think>"
  const FENCE := "```"
  const JSON := "json"

  predicate At(s: string, i: nat, t: string) {
    i + |t| <= |s| && forall k :: 0 <= k < |t| ==> s[i + k] == t[k]
  }

  ghost predicate Contains(s: string, t: string) {
    exists i: nat :: At(s, i, t)
  }

  /** `s.find(t, from)`. */
  function Find(s: string, t: string, from: nat): (r: Option<nat>)
    ensures r.Some? ==> from <= r.value && At(s, r.value, t)
    ensures forall k: nat :: from <= k && At(s, k, t) ==> r.Some? && r.value <= k
    decreases |s| - from
  {
    if At(s, from, t) then Some(from)
    else if from >= |s| then None
    else Find(s, t, from + 1)
  }

  /** `s.rfind(c)` in `s[..n]`. */
  function FindLast(s: string, c: char, n: nat): (r: Option<nat>)
    requires n <= |s|
    ensures r.Some? ==> r.value < n && s[r.value] == c
    ensures forall k: nat :: k < n && s[k] == c ==> r.Some? && k <= r.value
  {
    if n == 0 then None
    else if s[n - 1] == c then Some(n - 1)
    else FindLast(s, c, n - 1)
  }

  /** `s.find(c)` in `s[from..]`. */
  function FindChar(s: string, c: char, from: nat): (r: Option<nat>)
    requires from <= |s|
    ensures r.Some? ==> from <= r.value < |s| && s[r.value] == c
    ensures forall k: nat :: from <= k < |s| && s[k] == c ==> r.Some? && r.value <= k
    decreases |s| - from
  {
    if from == |s| then None
    else if s[from] == c then Some(from)
    else FindChar(s, c, from + 1)
  }

  /** What `\s` matches and `strip` strips. */
  predicate Space(c: char) {
    || '\t' <= c <= '\r' || '\U{1c}' <= c <= ' ' || c == '\U{85}' || c == '\U{a0}' || c == '\U{1680}'
    || '\U{2000}' <= c <= '\U{200a}' || c == '\U{2028}' || c == '\U{2029}' || c == '\U{202f}'
    || c == '\U{205f}' || c == '\U{3000}'
  }

  /** The white space of Unicode by code. */
  lemma SpaceCodes(c: char)
    ensures
      var code := c as int;
      Space(c) <==>
        || 9 <= code <= 13 || 28 <= code <= 32 || code == 133 || code == 160 || code == 5760
        || 8192 <= code <= 8202 || code == 8232 || code == 8233 || code == 8239 || code == 8287 || code == 12288
  {
  }

  /** The first position from `i` on that is not white space. */
  function SkipSpace(s: string, i: nat): (r: nat)
    requires i <= |s|
    ensures i <= r <= |s|
    ensures forall k :: i <= k < r ==> Space(s[k])
    ensures r < |s| ==> !Space(s[r])
    decreases |s| - i
  {
    if i < |s| && Space(s[i]) then SkipSpace(s, i + 1) else i
  }

  function StripLeft(s: string): (r: string)
    ensures r != "" ==> !Space(r[0])
  {
    if s != "" && Space(s[0]) then StripLeft(s[1..]) else s
  }

  function StripRight(s: string): (r: string)
    ensures r <= s && (r != "" ==> !Space(r[|r| - 1]))
  {
    if s != "" && Space(s[|s| - 1]) then StripRight(s[..|s| - 1]) else s
  }

  function Strip(s: string): string {
    StripRight(StripLeft(s))
  }

  // ----- Think tags

  /** `re.sub(r"<think>.*?</think>", "", s, flags=re.DOTALL)` */
  function RemoveBlocks(s: string): string {
    match Find(s, OPEN, 0)
    case None => s
    case Some(i) =>
      match Find(s, CLOSE, i + |OPEN|)
      case None => s
      case Some(j) => s[..i] + RemoveBlocks(s[j + |CLOSE|..])
  }

  function CutUnclosed(s: string): string {
    match Find(s, OPEN, 0)
    case None => s
    case Some(i) => s[..i]
  }

  /** `s.split("</think>")[-1]` */
  function AfterLastClose(s: string): (r: string)
    ensures !Contains(r, CLOSE)
    ensures Contains(s, r)
  {
    match Find(s, CLOSE, 0)
    case None =>
      assert At(s, 0, s);
      s
    case Some(i) =>
      var rest := s[i + |CLOSE|..];
      var r := AfterLastClose(rest);
      assert At(s, i + |CLOSE|, rest);
      PartOfPart(r, rest, s);
      r
  }

  function TagFree(raw: string): string {
    AfterLastClose(CutUnclosed(RemoveBlocks(raw)))
  }

  // ----- The payload

  predicate FenceAt(s: string, i: nat) {
    i + 3 <= |s| && s[i] == '`' && s[i + 1] == '`' && s[i + 2] == '`'
  }

  predicate JsonAt(s: string, i: nat) {
    i + 4 <= |s| && s[i] == 'j' && s[i + 1] == 's' && s[i + 2] == 'o' && s[i + 3] == 'n'
  }

  /** Where the object of a fence opening at `i` would begin. */
  function FenceBody(s: string, i: nat): (r: nat)
    requires FenceAt(s, i)
    ensures i + 3 <= r <= |s|
  {
    SkipSpace(s, if JsonAt(s, i + 3) then i + 7 else i + 3)
  }

  /** An object may end at `e`: a brace, white space and a fence. */
  predicate ClosesFence(s: string, e: nat) {
    e < |s| && s[e] == '}' && FenceAt(s, SkipSpace(s, e + 1))
  }

  function FirstClosing(s: string, from: nat): (r: Option<nat>)
    ensures r.Some? ==> from <= r.value && ClosesFence(s, r.value)
    decreases |s| - from
  {
    if ClosesFence(s, from) then Some(from)
    else if from >= |s| then None
    else FirstClosing(s, from + 1)
  }

  /** The first and the last position of an object. */
  datatype Span = Span(first: nat, last: nat)

  /** An object from `span.first` to `span.last` is fenced at `i`. */
  predicate FenceSpan(s: string, i: nat, span: Span) {
    && FenceAt(s, i) && FenceBody(s, i) == span.first < span.last < |s| && s[span.first] == '{'
    && ClosesFence(s, span.last)
  }

  /** The shortest object fenced at `i`. */
  function FencedAt(s: string, i: nat): (r: Option<Span>)
    ensures r.Some? ==> FenceSpan(s, i, r.value)
  {
    if FenceAt(s, i) && FenceBody(s, i) < |s| && s[FenceBody(s, i)] == '{' then
      match FirstClosing(s, FenceBody(s, i) + 1)
      case None => None
      case Some(e) => Some(Span(FenceBody(s, i), e))
    else None
  }

  /** ``re.search(r"```(?:json)?\s*(\{.*?\})\s*```", s, flags=re.DOTALL)``: the leftmost match,
      with the shortest object. */
  function FencedObject(s: string, from: nat): (r: Option<Span>)
    ensures r.Some? ==> 0 < r.value.first < r.value.last < |s|
    ensures r.Some? ==> s[r.value.first] == '{' && s[r.value.last] == '}'
    decreases |s| - from
  {
    if from >= |s| then None
    else if FencedAt(s, from).Some? then FencedAt(s, from)
    else FencedObject(s, from + 1)
  }

  /** `s` without its first `n` characters, one at a time. */
  function From(s: string, n: nat): (r: string)
    requires n <= |s|
    ensures |r| == |s| - n
  {
    if n == 0 then s else From(s[1..], n - 1)
  }

  /** `s[i:j]` */
  function Slice(s: string, i: nat, j: nat): (r: string)
    requires i <= j <= |s|
    ensures |r| == j - i
  {
    From(s[..j], i)
  }

  /** From the first opening to the last closing brace, if that is one object. */
  function Outermost(text: string): string {
    var start, end := FindChar(text, '{', 0), FindLast(text, '}', |text|);
    if start.Some? && end.Some? && end.value > start.value then Strip(Slice(text, start.value, end.value + 1))
    else text
  }

  function Payload(text: string): string {
    match FencedObject(text, 0)
    case Some(span) => Strip(Slice(text, span.first, span.last + 1))
    case None => Outermost(text)
  }

  function Clean(raw: string): string {
    if raw == "" then "" else Payload(Strip(TagFree(raw)))
  }

  // ----- Parts of a string

  lemma CutOfCut(s: string, lo: nat, hi: nat, i: nat, j: nat)
    requires lo <= hi <= |s| && i <= j <= hi - lo
    ensures s[lo..hi][i..j] == s[lo + i..lo + j]
  {
    forall k | 0 <= k < j - i ensures s[lo..hi][i..j][k] == s[lo + i..lo + j][k] {
      assert s[lo..hi][i..j][k] == s[lo..hi][i + k] == s[lo + (i + k)];
      assert s[lo + i..lo + j][k] == s[lo + i + k];
    }
  }

  lemma {:induction false} FromIsDrop(s: string, n: nat)
    requires n <= |s|
    ensures From(s, n) == s[n..]
  {
    if n > 0 {
      FromIsDrop(s[1..], n - 1);
      assert s[1..][n - 1..] == s[n..];
    }
  }

  lemma SliceIs(s: string, i: nat, j: nat)
    requires i <= j <= |s|
    ensures Slice(s, i, j) == s[i..j]
  {
    FromIsDrop(s[..j], i);
  }

  lemma AtIsSlice(s: string, i: nat, t: string)
    ensures At(s, i, t) <==> i + |t| <= |s| && s[i..i + |t|] == t
  {
  }

  lemma PartOfPart(a: string, b: string, c: string)
    requires Contains(b, a) && Contains(c, b)
    ensures Contains(c, a)
  {
    var i: nat :| At(b, i, a);
    var k: nat :| At(c, k, b);
    forall d | 0 <= d < |a| ensures c[k + i + d] == a[d] {
      assert c[k + (i + d)] == b[i + d];
    }
    assert At(c, k + i, a);
  }

  lemma {:induction false} StripLeftSkips(s: string, n: nat) returns (i: nat)
    requires n < |s| ==> !Space(s[n])
    ensures i <= |s| && StripLeft(s) == s[i..]
    ensures n < |s| ==> i <= n
  {
    if s != "" && Space(s[0]) {
      var j := StripLeftSkips(s[1..], if n == 0 then |s| else n - 1);
      i := j + 1;
    } else {
      i := 0;
    }
  }

  lemma {:induction false} StripRightKeeps(s: string, n: nat)
    requires 0 < n <= |s| && !Space(s[n - 1])
    ensures n <= |StripRight(s)|
  {
    if n < |s| && Space(s[|s| - 1]) {
      StripRightKeeps(s[..|s| - 1], n);
    }
  }

  lemma StripIsPart(s: string)
    ensures Contains(s, Strip(s))
  {
    var i := StripLeftSkips(s, |s|);
    assert At(s, i, Strip(s));
  }

  predicate Stripped(s: string) {
    s != "" ==> !Space(s[0]) && !Space(s[|s| - 1])
  }

  lemma StripStrips(s: string)
    ensures Stripped(Strip(s))
    ensures Stripped(s) ==> Strip(s) == s
  {
  }

  predicate Braced(s: string) {
    |s| >= 2 && s[0] == '{' && s[|s| - 1] == '}'
  }

  predicate BracePair(s: string, i: nat, j: nat) {
    i < j < |s| && s[i] == '{' && s[j] == '}'
  }

  /** An opening brace somewhere before a closing one. */
  ghost predicate HasBraces(s: string) {
    exists i: nat, j: nat :: BracePair(s, i, j)
  }

  ghost predicate Fenced(s: string) {
    exists i: nat, span :: FenceSpan(s, i, span)
  }

  // ----- Fences inside a part

  lemma SkipIs(s: string, i: nat, r: nat)
    requires i <= r < |s| && !Space(s[r]) && forall k :: i <= k < r ==> Space(s[k])
    ensures SkipSpace(s, i) == r
  {
  }

  lemma AtWithin(s: string, lo: nat, hi: nat, i: nat, t: string)
    requires lo <= hi <= |s| && i + |t| <= hi - lo
    ensures At(s[lo..hi], i, t) <==> At(s, lo + i, t)
  {
  }

  lemma ClosesWithin(s: string, lo: nat, hi: nat, e: nat)
    requires lo <= hi <= |s| && ClosesFence(s[lo..hi], e)
    ensures ClosesFence(s, lo + e) && lo + e + 3 < hi
  {
  }

  lemma BodyWithin(s: string, lo: nat, hi: nat, i: nat)
    requires lo <= hi <= |s| && FenceAt(s[lo..hi], i)
    requires FenceBody(s[lo..hi], i) < hi - lo && s[lo..hi][FenceBody(s[lo..hi], i)] == '{'
    ensures FenceAt(s, lo + i) && FenceBody(s, lo + i) == lo + FenceBody(s[lo..hi], i)
  {
  }

  /** A fenced object of a part is fenced in the whole. */
  lemma SpanWithin(s: string, lo: nat, hi: nat, i: nat, span: Span)
    requires lo <= hi <= |s| && FenceSpan(s[lo..hi], i, span)
    ensures FenceSpan(s, lo + i, Span(lo + span.first, lo + span.last))
    ensures lo + span.last + 3 < hi
  {
    BodyWithin(s, lo, hi, i);
    ClosesWithin(s, lo, hi, span.last);
  }

  lemma FencesAndTags(s: string, i: nat)
    ensures FenceAt(s, i) <==> At(s, i, FENCE)
    ensures JsonAt(s, i) <==> At(s, i, JSON)
  {
    if At(s, i, FENCE) {
      assert s[i + 0] == FENCE[0] && s[i + 1] == FENCE[1] && s[i + 2] == FENCE[2];
    }
    if At(s, i, JSON) {
      assert s[i + 0] == JSON[0] && s[i + 1] == JSON[1] && s[i + 2] == JSON[2] && s[i + 3] == JSON[3];
    }
  }

  lemma SlicesAreFenceFree(s: string, lo: nat, hi: nat)
    requires lo <= hi <= |s|
    ensures Fenced(Slice(s, lo, hi)) ==> Fenced(s)
  {
    SliceIs(s, lo, hi);
    if Fenced(s[lo..hi]) {
      var i: nat, span :| FenceSpan(s[lo..hi], i, span);
      SpanWithin(s, lo, hi, i, span);
    }
  }

  lemma {:induction false} FirstClosingIsFirst(s: string, from: nat, e: nat)
    requires from <= e && ClosesFence(s, e)
    ensures FirstClosing(s, from).Some? && FirstClosing(s, from).value <= e
    decreases e - from
  {
    if !ClosesFence(s, from) {
      FirstClosingIsFirst(s, from + 1, e);
    }
  }

  lemma FencedAtIsShortest(s: string, i: nat, span: Span)
    requires FenceSpan(s, i, span)
    ensures FencedAt(s, i).Some? && FencedAt(s, i).value.last <= span.last
  {
    FirstClosingIsFirst(s, FenceBody(s, i) + 1, span.last);
  }

  lemma PastTheEnd(s: string, i: nat)
    requires i >= |s|
    ensures FencedAt(s, i).None?
  {
  }

  lemma {:induction false} FencedObjectIsLeftmost(s: string, from: nat)
    ensures FencedObject(s, from).Some? ==> exists i: nat :: from <= i && FencedAt(s, i) == FencedObject(s, from)
    ensures FencedObject(s, from).None? ==> forall i: nat :: from <= i ==> FencedAt(s, i).None?
    decreases |s| - from
  {
    if from >= |s| {
      forall i: nat | from <= i ensures FencedAt(s, i).None? {
        PastTheEnd(s, i);
      }
    } else if FencedAt(s, from).Some? {
      assert FencedObject(s, from) == FencedAt(s, from);
    } else {
      assert FencedObject(s, from) == FencedObject(s, from + 1);
      FencedObjectIsLeftmost(s, from + 1);
    }
  }

  lemma NothingFenced(s: string)
    requires FencedObject(s, 0).None?
    ensures !Fenced(s)
  {
    FencedObjectIsLeftmost(s, 0);
    forall i: nat, span ensures !FenceSpan(s, i, span) {
      if FenceSpan(s, i, span) {
        FencedAtIsShortest(s, i, span);
      }
    }
  }

  lemma NoEarlierEnd(s: string, i: nat, outer: Span, e: nat)
    requires FencedAt(s, i) == Some(outer) && outer.first < e < outer.last
    ensures !ClosesFence(s, e)
  {
    if ClosesFence(s, e) {
      FencedAtIsShortest(s, i, Span(outer.first, e));
    }
  }

  lemma NoSpanInside(s: string, lo: nat, hi: nat, k: nat, span: Span)
    requires lo <= hi <= |s| && forall e: nat :: lo < e < hi - 1 ==> !ClosesFence(s, e)
    ensures !FenceSpan(s[lo..hi], k, span)
  {
    if FenceSpan(s[lo..hi], k, span) {
      SpanWithin(s, lo, hi, k, span);
    }
  }

  lemma NoFenceInside(s: string, lo: nat, hi: nat)
    requires lo <= hi <= |s| && forall e: nat :: lo < e < hi - 1 ==> !ClosesFence(s, e)
    ensures !Fenced(Slice(s, lo, hi))
  {
    SliceIs(s, lo, hi);
    forall k: nat, span ensures !FenceSpan(s[lo..hi], k, span) {
      NoSpanInside(s, lo, hi, k, span);
    }
  }

  /** The shortest object holds no fenced object itself. */
  lemma FencedObjectHoldsNoFence(s: string, i: nat, outer: Span)
    requires FencedAt(s, i) == Some(outer)
    ensures !Fenced(Slice(s, outer.first, outer.last + 1))
  {
    forall e: nat | outer.first < e < outer.last ensures !ClosesFence(s, e) {
      NoEarlierEnd(s, i, outer, e);
    }
    NoFenceInside(s, outer.first, outer.last + 1);
  }

  // ----- Canonical replies

  ghost predicate NoTags(s: string) {
    !Contains(s, OPEN) && !Contains(s, CLOSE)
  }

  /** The replies that the cleaner returns. */
  ghost predicate Canonical(s: string) {
    && NoTags(s)
    && Stripped(s) && !Fenced(s)
    && (HasBraces(s) ==> Braced(s))
  }

  lemma NoOpenBeforeTheFirst(s: string)
    ensures !Contains(CutUnclosed(s), OPEN) && Contains(s, CutUnclosed(s))
  {
    var r := CutUnclosed(s);
    assert At(s, 0, r);
    forall k: nat ensures !At(r, k, OPEN) {
      if At(r, k, OPEN) {
        AtWithin(s, 0, |r|, k, OPEN);
      }
    }
  }

  lemma NoTagIsLeft(raw: string)
    ensures NoTags(TagFree(raw))
  {
    var cut := CutUnclosed(RemoveBlocks(raw));
    NoOpenBeforeTheFirst(RemoveBlocks(raw));
    if Contains(TagFree(raw), OPEN) {
      PartOfPart(OPEN, TagFree(raw), cut);
    }
  }

  lemma ObjectShape(text: string, i: nat, j: nat)
    requires BracePair(text, i, j)
    ensures
      var r := Slice(text, i, j + 1);
      Strip(r) == r && Braced(r) && Stripped(r) && HasBraces(text)
  {
    SliceIs(text, i, j + 1);
    StripStrips(Slice(text, i, j + 1));
  }

  lemma FencedShape(text: string, span: Span)
    requires FencedObject(text, 0) == Some(span)
    ensures !Fenced(Slice(text, span.first, span.last + 1)) && BracePair(text, span.first, span.last)
  {
    FencedObjectIsLeftmost(text, 0);
    var i: nat :| FencedAt(text, i) == Some(span);
    FencedObjectHoldsNoFence(text, i, span);
  }

  lemma OutermostShape(text: string)
    requires Stripped(text)
    ensures Stripped(Outermost(text))
    ensures if HasBraces(text) then Braced(Outermost(text)) else Outermost(text) == text
  {
    BracesFound(text);
    if HasBraces(text) {
      ObjectShape(text, FindChar(text, '{', 0).value, FindLast(text, '}', |text|).value);
    }
  }

  lemma OutermostIsFenceFree(text: string)
    requires !Fenced(text)
    ensures !Fenced(Outermost(text))
  {
    BracesFound(text);
    if HasBraces(text) {
      var start, end := FindChar(text, '{', 0).value, FindLast(text, '}', |text|).value;
      ObjectShape(text, start, end);
      SlicesAreFenceFree(text, start, end + 1);
    }
  }

  lemma FencedPayload(text: string, span: Span)
    requires FencedObject(text, 0) == Some(span)
    ensures !Fenced(Payload(text)) && Stripped(Payload(text)) && HasBraces(text) && Braced(Payload(text))
  {
    FencedShape(text, span);
    ObjectShape(text, span.first, span.last);
  }

  lemma UnfencedPayload(text: string)
    requires Stripped(text) && FencedObject(text, 0).None?
    ensures !Fenced(Payload(text)) && Stripped(Payload(text))
    ensures if HasBraces(text) then Braced(Payload(text)) else Payload(text) == text
  {
    NothingFenced(text);
    OutermostShape(text);
    OutermostIsFenceFree(text);
  }

  /** The payload holds no fence; it is braced if there are braces to find, and otherwise
      everything. */
  lemma PayloadShape(text: string)
    requires Stripped(text)
    ensures !Fenced(Payload(text)) && Stripped(Payload(text))
    ensures if HasBraces(text) then Braced(Payload(text)) else Payload(text) == text
  {
    match FencedObject(text, 0)
    case Some(span) => FencedPayload(text, span);
    case None => UnfencedPayload(text);
  }

  lemma BracesFound(text: string)
    ensures
      var start, end := FindChar(text, '{', 0), FindLast(text, '}', |text|);
      HasBraces(text) <==> start.Some? && end.Some? && end.value > start.value
  {
    var start, end := FindChar(text, '{', 0), FindLast(text, '}', |text|);
    if start.Some? && end.Some? && end.value > start.value {
      assert BracePair(text, start.value, end.value);
    }
  }

  lemma StrippedSliceIsPart(s: string, lo: nat, hi: nat)
    requires lo <= hi <= |s|
    ensures Contains(s, Strip(Slice(s, lo, hi)))
  {
    SliceIs(s, lo, hi);
    StripIsPart(s[lo..hi]);
    assert At(s, lo, s[lo..hi]);
    PartOfPart(Strip(s[lo..hi]), s[lo..hi], s);
  }

  lemma WholeIsPart(s: string)
    ensures Contains(s, s)
  {
    assert At(s, 0, s);
  }

  lemma {:induction false} BetweenBraces(text: string, start: nat, end: nat)
    requires FindChar(text, '{', 0) == Some(start) && FindLast(text, '}', |text|) == Some(end) && end > start
    ensures Outermost(text) == Strip(Slice(text, start, end + 1))
  {
  }

  lemma {:induction false} NothingBetween(text: string)
    requires
      var start, end := FindChar(text, '{', 0), FindLast(text, '}', |text|);
      start.None? || end.None? || end.value <= start.value
    ensures Outermost(text) == text
  {
  }

  lemma {:induction false} OutermostIsPart(text: string)
    ensures Contains(text, Outermost(text))
  {
    var start, end := FindChar(text, '{', 0), FindLast(text, '}', |text|);
    if start.Some? && end.Some? && end.value > start.value {
      BetweenBraces(text, start.value, end.value);
      StrippedSliceIsPart(text, start.value, end.value + 1);
    } else {
      NothingBetween(text);
      WholeIsPart(text);
    }
  }

  lemma PayloadIsPart(text: string)
    ensures Contains(text, Payload(text))
  {
    match FencedObject(text, 0)
    case Some(span) => StrippedSliceIsPart(text, span.first, span.last + 1);
    case None => OutermostIsPart(text);
  }

  lemma CleanIsPart(raw: string)
    ensures Contains(TagFree(raw), Clean(raw))
  {
    var text := Strip(TagFree(raw));
    if raw == "" {
      assert At(TagFree(raw), 0, "");
    } else {
      StripIsPart(TagFree(raw));
      PayloadIsPart(text);
      PartOfPart(Payload(text), text, TagFree(raw));
    }
  }

  lemma CleanHasNoTags(raw: string)
    ensures NoTags(Clean(raw))
  {
    NoTagIsLeft(raw);
    CleanIsPart(raw);
    if Contains(Clean(raw), OPEN) {
      PartOfPart(OPEN, Clean(raw), TagFree(raw));
    }
    if Contains(Clean(raw), CLOSE) {
      PartOfPart(CLOSE, Clean(raw), TagFree(raw));
    }
  }

  lemma CleanIsCanonical(raw: string)
    ensures Canonical(Clean(raw))
  {
    CleanHasNoTags(raw);
    StripStrips(TagFree(raw));
    PayloadShape(Strip(TagFree(raw)));
    NothingInNothing();
  }

  lemma NothingInNothing()
    ensures Canonical("")
  {
  }

  lemma BracesWithin(a: string, b: string)
    requires Contains(b, a) && HasBraces(a)
    ensures HasBraces(b)
  {
    var lo: nat :| At(b, lo, a);
    var i: nat, j: nat :| BracePair(a, i, j);
    assert BracePair(b, lo + i, lo + j);
  }

  lemma CanonicalIsFixed(s: string)
    requires Canonical(s)
    ensures Clean(s) == s
  {
    NoTagsAreFree(s);
    StripStrips(s);
    FencedObjectIsLeftmost(s, 0);
    OutermostShape(s);
    if Braced(s) {
      OutermostOfBraced(s);
    }
  }

  lemma OutermostOfBraced(s: string)
    requires Braced(s)
    ensures Outermost(s) == s
  {
  }

  /** Cleaning a reply twice, as the providers and the nodes do, is cleaning it once. */
  lemma CleanIsIdempotent(raw: string)
    ensures Clean(Clean(raw)) == Clean(raw)
  {
    CleanIsCanonical(raw);
    CanonicalIsFixed(Clean(raw));
  }

  lemma FixedIffCanonical(s: string)
    ensures Clean(s) == s <==> Canonical(s)
  {
    CleanIsCanonical(s);
    if Canonical(s) {
      CanonicalIsFixed(s);
    }
  }

  /** Stripping keeps whatever lies between two characters that are no white space. */
  lemma StripKeeps(s: string, lo: nat, hi: nat) returns (a: nat, b: nat)
    requires lo < hi <= |s| && !Space(s[lo]) && !Space(s[hi - 1])
    ensures a <= lo && hi <= b <= |s| && Strip(s) == s[a..b]
  {
    a := StripLeftSkips(s, lo);
    StripRightKeeps(s[a..], hi - a);
    b := a + |StripRight(s[a..])|;
  }

  lemma StripKeepsPair(s: string, i: nat, j: nat)
    requires BracePair(s, i, j)
    ensures HasBraces(Strip(s))
  {
    var a, b := StripKeeps(s, i, j + 1);
    assert BracePair(s[a..b], i - a, j - a);
  }

  lemma StripKeepsBraces(s: string)
    ensures HasBraces(Strip(s)) <==> HasBraces(s)
  {
    if HasBraces(Strip(s)) {
      StripIsPart(s);
      BracesWithin(Strip(s), s);
    }
    if HasBraces(s) {
      var i: nat, j: nat :| BracePair(s, i, j);
      StripKeepsPair(s, i, j);
    }
  }

  lemma BracedHasBraces(s: string)
    ensures Braced(s) ==> HasBraces(s)
  {
    if Braced(s) {
      assert BracePair(s, 0, |s| - 1);
    }
  }

  /** The result is a part of the tag-free text with no tag in it, and it is a braced
      object exactly when that text has an opening brace before a closing one. */
  lemma CleanFindsTheObject(raw: string)
    ensures NoTags(Clean(raw))
    ensures Contains(TagFree(raw), Clean(raw))
    ensures Braced(Clean(raw)) <==> HasBraces(TagFree(raw))
  {
    CleanHasNoTags(raw);
    CleanIsPart(raw);
    StripStrips(TagFree(raw));
    StripKeepsBraces(TagFree(raw));
    PayloadShape(Strip(TagFree(raw)));
    BracedHasBraces(Strip(TagFree(raw)));
  }

  // ----- What is recovered from a reply

  lemma FirstIs(s: string, t: string, from: nat, i: nat)
    requires from <= i && At(s, i, t) && forall k: nat :: from <= k < i ==> !At(s, k, t)
    ensures Find(s, t, from) == Some(i)
  {
  }

  lemma NotInThought(raw: string, lo: nat, thought: string, k: nat)
    requires lo <= k && k + |CLOSE| <= lo + |thought| <= |raw| && raw[lo..lo + |thought|] == thought
    requires !Contains(thought, CLOSE)
    ensures !At(raw, k, CLOSE)
  {
    AtWithin(raw, lo, lo + |thought|, k - lo, CLOSE);
    assert !At(thought, k - lo, CLOSE);
  }

  /** A closing tag cannot begin inside another one. */
  lemma NotAcrossTheEnd(raw: string, end: nat, k: nat)
    requires k < end < k + |CLOSE| && At(raw, end, CLOSE)
    ensures !At(raw, k, CLOSE)
  {
    assert raw[end + 0] == CLOSE[0] == '<';
    assert CLOSE[end - k] != '<';
  }

  lemma ClosesAfter(p: string, thought: string, rest: string)
    requires !Contains(thought, CLOSE)
    ensures Find(p + thought + CLOSE + rest, CLOSE, |p|) == Some(|p| + |thought|)
  {
    var raw, end := p + thought + CLOSE + rest, |p| + |thought|;
    assert raw[|p|..end] == thought && raw[end..end + |CLOSE|] == CLOSE;
    AtIsSlice(raw, end, CLOSE);
    forall k: nat | |p| <= k < end ensures !At(raw, k, CLOSE) {
      if k + |CLOSE| <= end {
        NotInThought(raw, |p|, thought, k);
      } else {
        NotAcrossTheEnd(raw, end, k);
      }
    }
    FirstIs(raw, CLOSE, |p|, end);
  }

  /** An opening tag cannot begin inside the text before another one. */
  lemma NotAcrossTheBegin(raw: string, before: string, k: nat)
    requires before <= raw && At(raw, |before|, OPEN) && !Contains(before, OPEN) && k < |before|
    ensures !At(raw, k, OPEN)
  {
    if k + |OPEN| <= |before| {
      AtWithin(raw, 0, |before|, k, OPEN);
      assert raw[0..|before|] == before && !At(before, k, OPEN);
    } else {
      NotInsideATag(raw, |before|, k);
    }
  }

  lemma NotInsideATag(raw: string, begin: nat, k: nat)
    requires k < begin < k + |OPEN| && At(raw, begin, OPEN)
    ensures !At(raw, k, OPEN)
  {
    assert raw[begin + 0] == OPEN[0] == '<';
    assert OPEN[begin - k] != '<';
  }

  lemma OpensAfter(before: string, rest: string)
    requires !Contains(before, OPEN)
    ensures Find(before + OPEN + rest, OPEN, 0) == Some(|before|)
  {
    var raw := before + OPEN + rest;
    assert raw[|before|..|before| + |OPEN|] == OPEN;
    AtIsSlice(raw, |before|, OPEN);
    forall k: nat | k < |before| ensures !At(raw, k, OPEN) {
      NotAcrossTheBegin(raw, before, k);
    }
    FirstIs(raw, OPEN, 0, |before|);
  }

  /** A block of reasoning is cut out of the text around it, and nothing else is. */
  lemma BlockIsCutOut(before: string, thought: string, after: string)
    requires !Contains(before, OPEN) && !Contains(thought, CLOSE)
    ensures RemoveBlocks(before + OPEN + thought + CLOSE + after) == before + RemoveBlocks(after)
  {
    var raw := before + OPEN + thought + CLOSE + after;
    assert raw == before + OPEN + (thought + CLOSE + after);
    OpensAfter(before, thought + CLOSE + after);
    ClosesAfter(before + OPEN, thought, after);
    assert raw[..|before|] == before;
    assert raw[|before| + |OPEN| + |thought| + |CLOSE|..] == after;
  }

  /** Reasoning in the middle of an answer is as good as not there. */
  lemma ReasoningInTheMiddle(before: string, thought: string, after: string)
    requires !Contains(thought, CLOSE) && NoTags(before + after)
    ensures Clean(before + OPEN + thought + CLOSE + after) == Clean(before + after)
  {
    PartsHaveNoTags(before, after);
    BlockIsCutOut(before, thought, after);
    NoTagsAreFree(before + after);
    assert Find(after, OPEN, 0).None?;
    assert RemoveBlocks(after) == after && Find(before + after, OPEN, 0).None?;
    assert RemoveBlocks(before + after) == before + after;
    if before + after == "" {
      assert TagFree("") == "";
    }
  }

  lemma PartsHaveNoTags(before: string, after: string)
    requires NoTags(before + after)
    ensures NoTags(before) && NoTags(after)
  {
    var s := before + after;
    assert s[0..|before|] == before && s[|before|..|s|] == after;
    assert At(s, 0, before);
    assert At(s, |before|, after);
    forall t | Contains(before, t) || Contains(after, t) ensures Contains(s, t) {
      if Contains(before, t) {
        PartOfPart(t, before, s);
      } else {
        PartOfPart(t, after, s);
      }
    }
  }

  lemma UnclosedBlockIsCut(before: string, thought: string)
    requires !Contains(before, OPEN) && !Contains(OPEN + thought, CLOSE)
    ensures CutUnclosed(RemoveBlocks(before + OPEN + thought)) == before
  {
    var raw := before + OPEN + thought;
    OpensAfter(before, thought);
    assert raw[|before|..|raw|] == OPEN + thought;
    forall k: nat | |before| + |OPEN| <= k ensures !At(raw, k, CLOSE) {
      if At(raw, k, CLOSE) {
        AtWithin(raw, |before|, |raw|, k - |before|, CLOSE);
      }
    }
    assert Find(raw, CLOSE, |before| + |OPEN|).None?;
    assert raw[..|before|] == before;
  }

  /** Reasoning that is cut off is dropped with all that follows, and the text in front of it
      stays. */
  lemma UnclosedReasoningIsDropped(before: string, thought: string)
    requires NoTags(before) && !Contains(OPEN + thought, CLOSE)
    ensures Clean(before + OPEN + thought) == Clean(before)
  {
    UnclosedBlockIsCut(before, thought);
    NoTagsAreFree(before);
    NothingAfterClose(before);
    NothingIsClean();
  }

  lemma NothingAfterClose(s: string)
    requires NoTags(s)
    ensures AfterLastClose(s) == s
  {
    assert Find(s, CLOSE, 0).None?;
  }

  lemma NothingIsClean()
    ensures Payload(Strip("")) == ""
  {
  }

  /** Reasoning whose opening tag is missing is dropped too. */
  lemma UnopenedReasoningIsDropped(thought: string, rest: string)
    requires !Contains(thought, CLOSE) && !Contains(thought + CLOSE + rest, OPEN)
    ensures Clean(thought + CLOSE + rest) == Clean(rest)
  {
    var raw, i := thought + CLOSE + rest, |thought| + |CLOSE|;
    assert "" + thought + CLOSE + rest == raw;
    ClosesAfter("", thought, rest);
    assert raw[i..] == rest;
    forall k: nat ensures !At(rest, k, OPEN) {
      if At(rest, k, OPEN) {
        AtWithin(raw, i, |raw|, k, OPEN);
      }
    }
    assert Find(raw, OPEN, 0).None? && Find(rest, OPEN, 0).None?;
    assert TagFree(raw) == AfterLastClose(raw) == AfterLastClose(rest) == TagFree(rest);
  }

  /** Reasoning in front of an answer, whatever it holds but its own end, changes
      nothing; and reasoning that is cut off leaves nothing. */
  lemma ReasoningIsDropped(thought: string, rest: string)
    requires !Contains(thought, CLOSE)
    ensures Clean(OPEN + thought + CLOSE + rest) == Clean(rest)
    ensures Clean(OPEN + thought) == ""
  {
    var raw := OPEN + thought + CLOSE + rest;
    ClosesAfter(OPEN, thought, rest);
    FirstIs(raw, OPEN, 0, 0);
    assert raw[|OPEN| + |thought| + |CLOSE|..] == rest;
    assert RemoveBlocks(raw) == RemoveBlocks(rest);
    CutOffReasoning(thought);
  }

  lemma CutOffReasoning(thought: string)
    requires !Contains(thought, CLOSE)
    ensures Clean(OPEN + thought) == ""
  {
    var raw := OPEN + thought;
    FirstIs(raw, OPEN, 0, 0);
    forall k: nat | |OPEN| <= k ensures !At(raw, k, CLOSE) {
      if k + |CLOSE| <= |raw| {
        assert !At(thought, k - |OPEN|, CLOSE);
        var d :| 0 <= d < |CLOSE| && thought[k - |OPEN| + d] != CLOSE[d];
        assert raw[k + d] == thought[k - |OPEN| + d];
      }
    }
    assert RemoveBlocks(raw) == raw && CutUnclosed(raw) == "";
  }

  lemma OutermostIsolates(text: string, lo: nat, hi: nat)
    requires lo < hi < |text| && text[lo] == '{' && text[hi] == '}'
    requires forall k :: 0 <= k < lo ==> text[k] != '{'
    requires forall k :: hi < k < |text| ==> text[k] != '}'
    ensures Outermost(text) == Slice(text, lo, hi + 1)
  {
    ObjectShape(text, lo, hi);
  }

  lemma NoFenceNoObject(s: string, a: nat, b: nat)
    requires a <= b <= |s| && !Contains(s, FENCE)
    ensures FencedObject(Slice(s, a, b), 0).None?
  {
    forall i: nat, span ensures !FenceSpan(s, i, span) {
      FencesAndTags(s, i);
    }
    SlicesAreFenceFree(s, a, b);
    FencedObjectIsLeftmost(Slice(s, a, b), 0);
  }

  lemma SliceAt(s: string, a: nat, b: nat, k: nat)
    requires a <= b <= |s| && k < b - a
    ensures Slice(s, a, b)[k] == s[a + k]
  {
    SliceIs(s, a, b);
  }

  lemma SliceOfSlice(s: string, a: nat, b: nat, lo: nat, hi: nat)
    requires a <= lo <= hi <= b <= |s|
    ensures Slice(Slice(s, a, b), lo - a, hi - a) == Slice(s, lo, hi)
  {
    SliceIs(s, a, b);
    SliceIs(s, lo, hi);
    SliceIs(Slice(s, a, b), lo - a, hi - a);
    CutOfCut(s, a, b, lo - a, hi - a);
  }

  lemma PartPayload(s: string, a: nat, b: nat, lo: nat, hi: nat)
    requires a <= lo < hi < b <= |s| && s[lo] == '{' && s[hi] == '}' && !Contains(s, FENCE)
    requires forall k :: 0 <= k < lo ==> s[k] != '{'
    requires forall k :: hi < k < |s| ==> s[k] != '}'
    ensures Payload(Slice(s, a, b)) == Slice(s, lo, hi + 1)
  {
    NoFenceNoObject(s, a, b);
    forall k | 0 <= k < b - a ensures Slice(s, a, b)[k] == s[a + k] {
      SliceAt(s, a, b, k);
    }
    OutermostIsolates(Slice(s, a, b), lo - a, hi - a);
    SliceOfSlice(s, a, b, lo, hi + 1);
  }

  lemma ProsePayload(s: string, lo: nat, hi: nat)
    requires lo < hi < |s| && s[lo] == '{' && s[hi] == '}' && !Contains(s, FENCE)
    requires forall k :: 0 <= k < lo ==> s[k] != '{'
    requires forall k :: hi < k < |s| ==> s[k] != '}'
    ensures Payload(Strip(s)) == Slice(s, lo, hi + 1)
  {
    var a, b := StripKeeps(s, lo, hi + 1);
    SliceIs(s, a, b);
    PartPayload(s, a, b, lo, hi);
  }

  lemma NoTagsAreFree(s: string)
    requires NoTags(s)
    ensures TagFree(s) == s
  {
    assert Find(s, OPEN, 0).None? && Find(s, CLOSE, 0).None?;
    assert RemoveBlocks(s) == s && CutUnclosed(s) == s;
  }

  /** An answer in prose: the object from the first opening to the last closing brace
      is what is left, whatever the reasoning. */
  lemma ProseAnswer(thought: string, before: string, body: string, after: string)
    requires Braced(body) && '{' !in before && '}' !in after
    requires !Contains(thought, CLOSE)
    requires NoTags(before + body + after) && !Contains(before + body + after, FENCE)
    ensures Clean(OPEN + thought + CLOSE + (before + body + after)) == body
  {
    var s := before + body + after;
    var lo, hi := |before|, |before| + |body|;
    assert s[lo..hi] == body;
    SliceIs(s, lo, hi);
    assert s[lo] == body[0] && s[hi - 1] == body[|body| - 1];
    ProsePayload(s, lo, hi - 1);
    NoTagsAreFree(s);
    ReasoningIsDropped(thought, s);
  }

  predicate AllSpace(s: string) {
    forall k :: 0 <= k < |s| ==> Space(s[k])
  }

  /** A fence at `i` with its tag, its object and the white space around the object. */
  predicate FenceLayout(s: string, i: nat, tag: string, gap: string, body: string, gap': string) {
    var lo := i + 3 + |tag| + |gap|;
    && FenceAt(s, i) && At(s, i + 3, tag) && At(s, i + 3 + |tag|, gap)
    && At(s, lo, body) && At(s, lo + |body|, gap') && FenceAt(s, lo + |body| + |gap'|)
  }

  predicate FencedReply(tag: string, gap: string, body: string, gap': string) {
    (tag == "" || tag == JSON) && AllSpace(gap) && AllSpace(gap') && Braced(body)
  }

  lemma LayoutBegins(s: string, i: nat, tag: string, gap: string, body: string, gap': string)
    requires FencedReply(tag, gap, body, gap') && FenceLayout(s, i, tag, gap, body, gap')
    ensures FenceBody(s, i) == i + 3 + |tag| + |gap|
  {
    var lo := i + 3 + |tag| + |gap|;
    assert s[lo + 0] == body[0];
    forall k | lo - |gap| <= k < lo ensures Space(s[k]) {
      assert s[lo - |gap| + (k - (lo - |gap|))] == gap[k - (lo - |gap|)];
    }
    FencesAndTags(s, i + 3);
    SkipIs(s, lo - |gap|, lo);
  }

  lemma LayoutEnds(s: string, i: nat, tag: string, gap: string, body: string, gap': string)
    requires FencedReply(tag, gap, body, gap') && FenceLayout(s, i, tag, gap, body, gap')
    ensures ClosesFence(s, i + 3 + |tag| + |gap| + |body| - 1)
  {
    var hi := i + 3 + |tag| + |gap| + |body|;
    assert s[hi - |body| + (|body| - 1)] == body[|body| - 1];
    forall k | hi <= k < hi + |gap'| ensures Space(s[k]) {
      assert s[hi + (k - hi)] == gap'[k - hi];
    }
    SkipIs(s, hi, hi + |gap'|);
  }

  /** A fence that closed earlier would lie inside the object. */
  lemma NoEarlierClose(s: string, lo: nat, body: string, e: nat)
    requires Braced(body) && !Contains(body, FENCE) && At(s, lo, body)
    requires lo <= e < lo + |body| - 1
    ensures !ClosesFence(s, e)
  {
    var last := lo + |body| - 1;
    assert s[lo + (|body| - 1)] == '}';
    if ClosesFence(s, e) {
      var f := SkipSpace(s, e + 1);
      assert f <= last;
      assert s[lo + (f - lo)] == '`' && s[lo + (f - lo + 1)] == '`' && s[lo + (f - lo + 2)] == '`';
      FencesAndTags(body, f - lo);
    }
  }

  lemma {:induction false} FirstTickFence(s: string, from: nat, i: nat, span: Span)
    requires from <= i < |s| && FencedAt(s, i) == Some(span)
    requires forall k :: from <= k < i ==> s[k] != '`'
    ensures FencedObject(s, from) == Some(span)
    decreases i - from
  {
    if from < i {
      FirstTickFence(s, from + 1, i, span);
    }
  }

  lemma LayoutIsFound(s: string, i: nat, tag: string, gap: string, body: string, gap': string)
    requires FencedReply(tag, gap, body, gap') && FenceLayout(s, i, tag, gap, body, gap')
    requires !Contains(body, FENCE) && forall k :: 0 <= k < i ==> s[k] != '`'
    ensures
      var lo := i + 3 + |tag| + |gap|;
      FencedObject(s, 0) == Some(Span(lo, lo + |body| - 1))
  {
    var lo := i + 3 + |tag| + |gap|;
    assert s[lo + 0] == body[0];
    LayoutBegins(s, i, tag, gap, body, gap');
    LayoutEnds(s, i, tag, gap, body, gap');
    FencedAtIsShortest(s, i, Span(lo, lo + |body| - 1));
    if FencedAt(s, i).value.last < lo + |body| - 1 {
      NoEarlierClose(s, lo, body, FencedAt(s, i).value.last);
    }
    FirstTickFence(s, 0, i, Span(lo, lo + |body| - 1));
  }

  lemma LayoutWithin(s: string, a: nat, b: nat, i: nat, tag: string, gap: string, body: string, gap': string)
    requires a <= i && i + 6 + |tag| + |gap| + |body| + |gap'| <= b <= |s|
    requires FenceLayout(s, i, tag, gap, body, gap')
    ensures FenceLayout(s[a..b], i - a, tag, gap, body, gap')
  {
  }

  lemma LayoutPayload(s: string, i: nat, tag: string, gap: string, body: string, gap': string)
    requires FencedReply(tag, gap, body, gap') && FenceLayout(s, i, tag, gap, body, gap')
    requires !Contains(body, FENCE) && forall k :: 0 <= k < i ==> s[k] != '`'
    ensures Payload(Strip(s)) == body
  {
    var hi := i + 6 + |tag| + |gap| + |body| + |gap'|;
    var a, b := StripKeeps(s, i, hi);
    LayoutWithin(s, a, b, i, tag, gap, body, gap');
    LayoutIsPayload(s[a..b], i - a, tag, gap, body, gap');
  }

  lemma FoundPayload(s: string, span: Span, body: string)
    requires FencedObject(s, 0) == Some(span) && s[span.first..span.last + 1] == body && Stripped(body)
    ensures Payload(s) == body
  {
    SliceIs(s, span.first, span.last + 1);
    StripStrips(body);
  }

  lemma LayoutIsPayload(s: string, i: nat, tag: string, gap: string, body: string, gap': string)
    requires FencedReply(tag, gap, body, gap') && FenceLayout(s, i, tag, gap, body, gap')
    requires !Contains(body, FENCE) && forall k :: 0 <= k < i ==> s[k] != '`'
    ensures Payload(s) == body
  {
    var lo := i + 3 + |tag| + |gap|;
    LayoutIsFound(s, i, tag, gap, body, gap');
    AtIsSlice(s, lo, body);
    FoundPayload(s, Span(lo, lo + |body| - 1), body);
  }

  /** A fenced answer: the first fenced object is what is left, whatever the reasoning
      and whatever follows the fence. */
  lemma FencedAnswer(
      thought: string, before: string, tag: string, gap: string, body: string, gap': string, after: string)
    requires !Contains(thought, CLOSE) && '`' !in before
    requires FencedReply(tag, gap, body, gap') && !Contains(body, FENCE)
    requires NoTags(before + (FENCE + (tag + (gap + (body + (gap' + (FENCE + after)))))))
    ensures Clean(OPEN + thought + CLOSE + (before + (FENCE + (tag + (gap + (body + (gap' + (FENCE + after))))))))
         == body
  {
    var s := before + (FENCE + (tag + (gap + (body + (gap' + (FENCE + after))))));
    LayoutOf(before, tag, gap, body, gap', after);
    LayoutPayload(s, |before|, tag, gap, body, gap');
    NoTagsAreFree(s);
    ReasoningIsDropped(thought, s);
  }

  lemma LayoutOf(before: string, tag: string, gap: string, body: string, gap': string, after: string)
    ensures
      FenceLayout(before + (FENCE + (tag + (gap + (body + (gap' + (FENCE + after)))))), |before|, tag, gap, body, gap')
  {
  }
}
