/** Line/character positions and the incremental edits they delimit. */
module Positions {
  import opened Common
  import opened Text
  import opened Json

  // ---- positions by definition ----------------------------------------------------------

  predicate NoLf(t: Text, from: nat, to: nat)
    requires to <= |t|
  {
    forall i :: from <= i < to ==> t[i] != LF
  }

  /** `text.indexOf("\n", from)`. */
  function NextLf(t: Text, from: nat): (k: Option<nat>)
    requires from <= |t|
    ensures k.Some? ==> from <= k.value < |t| && t[k.value] == LF && NoLf(t, from, k.value)
    ensures k.None? ==> NoLf(t, from, |t|)
    decreases |t| - from
  {
    if from == |t| then None
    else if t[from] == LF then Some(from)
    else NextLf(t, from + 1)
  }

  /** Where line `n` starts, if the text has that many lines. */
  function LineStart(t: Text, n: nat): (s: Option<nat>)
    ensures s.Some? ==> s.value <= |t|
  {
    if n == 0 then Some(0)
    else
      var s := LineStart(t, n - 1);
      if s.None? then None
      else
        var k := NextLf(t, s.value);
        if k.None? then None else Some(k.value + 1)
  }

  /** End of the line that starts at `start`, without its terminator or a carriage return before it. */
  function LineEnd(t: Text, start: nat): (e: nat)
    requires start <= |t|
    ensures start <= e <= |t|
  {
    var lf := NextLf(t, start);
    var end := if lf.Some? then lf.value else |t|;
    if end > start && t[end - 1] == CR then end - 1 else end
  }

  datatype Position = Position(line: nat, character: nat)

  predicate Valid(t: Text, p: Position) {
    var s := LineStart(t, p.line);
    s.Some? && p.character <= LineEnd(t, s.value) - s.value
  }

  function Offset(t: Text, p: Position): (o: nat)
    requires Valid(t, p)
    ensures o <= |t|
  {
    LineStart(t, p.line).value + p.character
  }

  predicate Before(p: Position, q: Position) {
    p.line < q.line || (p.line == q.line && p.character < q.character)
  }

  // ---- the order embedding --------------------------------------------------------------

  lemma {:induction false} LaterLine(t: Text, m: nat, n: nat)
    requires m < n && LineStart(t, n).Some?
    ensures LineStart(t, m).Some? && LineEnd(t, LineStart(t, m).value) < LineStart(t, n).value
  {
    if m < n - 1 {
      LaterLine(t, m, n - 1);
    }
  }

  /** Comparing offsets is comparing positions. */
  lemma OffsetEmbedsOrder(t: Text, p: Position, q: Position)
    requires Valid(t, p) && Valid(t, q)
    ensures Offset(t, p) < Offset(t, q) <==> Before(p, q)
    ensures Offset(t, p) == Offset(t, q) <==> p == q
  {
    if p.line < q.line {
      LaterLine(t, p.line, q.line);
    } else if q.line < p.line {
      LaterLine(t, q.line, p.line);
    }
  }

  // ---- the inverse ----------------------------------------------------------------------

  /** The start of the line that offset `o` lies on, and that line's number. */
  function StartOf(t: Text, o: nat): (s: nat)
    requires o <= |t|
    ensures s <= o
  {
    if o == 0 then 0 else if t[o - 1] == LF then o else StartOf(t, o - 1)
  }

  function LineOf(t: Text, o: nat): nat
    requires o <= |t|
  {
    if o == 0 then 0 else LineOf(t, o - 1) + if t[o - 1] == LF then 1 else 0
  }

  function PositionOf(t: Text, o: nat): Position
    requires o <= |t|
  {
    Position(LineOf(t, o), o - StartOf(t, o))
  }

  /** The only offsets no position denotes: just after a carriage return that ends its line. */
  predicate AfterFinalCr(t: Text, o: nat)
    requires o <= |t|
  {
    0 < o && t[o - 1] == CR && (o == |t| || t[o] == LF)
  }

  lemma {:induction false} NoLfBetween(t: Text, o: nat)
    requires o <= |t|
    ensures NoLf(t, StartOf(t, o), o)
  {
    if o > 0 && t[o - 1] != LF {
      NoLfBetween(t, o - 1);
    }
  }

  lemma {:induction false} SkipToLf(t: Text, s: nat, o: nat)
    requires s <= o <= |t| && NoLf(t, s, o)
    ensures NextLf(t, s) == NextLf(t, o)
    decreases o - s
  {
    if s < o {
      SkipToLf(t, s + 1, o);
    }
  }

  /** From the start of `o`'s line, the next line feed is not before `o`. */
  lemma NextLfFrom(t: Text, o: nat)
    requires o <= |t|
    ensures var k := NextLf(t, StartOf(t, o));
            && (k.Some? ==> o <= k.value)
            && (o < |t| && t[o] == LF ==> k == Some(o))
  {
    NoLfBetween(t, o);
    SkipToLf(t, StartOf(t, o), o);
  }

  lemma {:induction false} LineStartOf(t: Text, o: nat)
    requires o <= |t|
    ensures LineStart(t, LineOf(t, o)) == Some(StartOf(t, o))
  {
    if o > 0 {
      LineStartOf(t, o - 1);
      if t[o - 1] == LF {
        NextLfFrom(t, o - 1);
      }
    }
  }

  /** Every offset but those after a line-final carriage return is the offset of its position. */
  lemma OffsetOfPosition(t: Text, o: nat)
    requires o <= |t|
    ensures Valid(t, PositionOf(t, o)) <==> !AfterFinalCr(t, o)
    ensures !AfterFinalCr(t, o) ==> Offset(t, PositionOf(t, o)) == o
  {
    LineStartOf(t, o);
    NextLfFrom(t, o);
    var s := StartOf(t, o);
    var k := NextLf(t, s);
    var end := if k.Some? then k.value else |t|;
    if AfterFinalCr(t, o) {
      assert end == o;
      assert s < o;
    } else if end == o {
    } else {
      assert o < end;
    }
  }

  /** Within a line, start and number do not change. */
  lemma {:induction false} AlongLine(t: Text, s: nat, o: nat)
    requires s <= o <= |t| && NoLf(t, s, o)
    ensures StartOf(t, o) == StartOf(t, s) && LineOf(t, o) == LineOf(t, s)
  {
    if s < o {
      AlongLine(t, s, o - 1);
    }
  }

  lemma {:induction false} LineStartIsStart(t: Text, n: nat)
    requires LineStart(t, n).Some?
    ensures var s := LineStart(t, n).value; StartOf(t, s) == s && LineOf(t, s) == n
  {
    if n > 0 {
      LineStartIsStart(t, n - 1);
      var s := LineStart(t, n - 1).value;
      AlongLine(t, s, NextLf(t, s).value);
    }
  }

  /** And the position of an offset is the only one that denotes it. */
  lemma PositionOfOffset(t: Text, p: Position)
    requires Valid(t, p)
    ensures !AfterFinalCr(t, Offset(t, p))
    ensures PositionOf(t, Offset(t, p)) == p
  {
    var o := Offset(t, p);
    var s := LineStart(t, p.line).value;
    LineStartIsStart(t, p.line);
    AlongLine(t, s, o);
    OffsetOfPosition(t, o);
  }

  // ---- reading a position and applying a change -----------------------------------------

  predicate IsPosition(m: Maybe) {
    IsObject(m) && IsIndex(Get(m.value, "line")) && IsIndex(Get(m.value, "character"))
  }

  function PositionFrom(m: Maybe): Position
    requires IsPosition(m)
  {
    Position(Index(Get(m.value, "line")), Index(Get(m.value, "character")))
  }

  /** The position a raw value denotes in a text, if it denotes one. */
  predicate Denotes(t: Text, m: Maybe) {
    IsPosition(m) && Valid(t, PositionFrom(m))
  }

  lemma {:induction false} NoFurtherLine(t: Text, m: nat, n: nat)
    requires m <= n && LineStart(t, m).None?
    ensures LineStart(t, n).None?
  {
    if m < n {
      NoFurtherLine(t, m, n - 1);
    }
  }

  /** `positionToOffset`. */
  method PositionToOffset(t: Text, raw: Maybe) returns (r: Option<nat>)
    ensures r.Some? <==> Denotes(t, raw)
    ensures r.Some? ==> r.value == Offset(t, PositionFrom(raw))
  {
    if !IsObject(raw) || !IsIndex(Get(raw.value, "line")) || !IsIndex(Get(raw.value, "character")) {
      return None;
    }
    var targetLine, targetCharacter := Index(Get(raw.value, "line")), Index(Get(raw.value, "character"));
    var lineStart := 0;
    for line := 0 to targetLine
      invariant LineStart(t, line) == Some(lineStart)
    {
      var newline := NextLf(t, lineStart);
      if newline.None? {
        NoFurtherLine(t, line + 1, targetLine);
        return None;
      }
      lineStart := newline.value + 1;
    }
    var newline := NextLf(t, lineStart);
    var lineEnd := if newline.None? then |t| else newline.value;
    if lineEnd > lineStart && t[lineEnd - 1] == CR {
      lineEnd := lineEnd - 1;
    }
    if targetCharacter > lineEnd - lineStart {
      return None;
    }
    return Some(lineStart + targetCharacter);
  }

  /** A change is well formed for `t`: full replacement, or a range whose end is not before its start. */
  predicate Applicable(t: Text, change: Json) {
    && change.Obj?
    && IsText(Get(change, "text")) && NUL !in Get(change, "text").value.text
    && var range := Get(change, "range");
    range.Defined? ==>
      && range.value.Obj?
      && var start := Get(range.value, "start");
      && var end := Get(range.value, "end");
      && Denotes(t, start) && Denotes(t, end)
      && !Before(PositionFrom(end), PositionFrom(start))
      && (Get(change, "rangeLength").Defined? ==> IsIndex(Get(change, "rangeLength")))
  }

  /** Replace the text between two positions. */
  function Splice(t: Text, p: Position, q: Position, x: Text): Text
    requires Valid(t, p) && Valid(t, q)
  {
    t[..Offset(t, p)] + x + t[Offset(t, q)..]
  }

  /** The text after the change. */
  function Changed(t: Text, change: Json): Text
    requires Applicable(t, change)
  {
    var text := Get(change, "text").value.text;
    var range := Get(change, "range");
    if range.Undefined? then text
    else Splice(t, PositionFrom(Get(range.value, "start")), PositionFrom(Get(range.value, "end")), text)
  }

  /** `applyDocumentChange`, as a function of the text. */
  function Applied(t: Text, change: Json, max: nat): Option<Text> {
    if Applicable(t, change) && IsSafe(Changed(t, change), max) then Some(Changed(t, change)) else None
  }

  method ApplyDocumentChange(t: Text, change: Json, max: nat) returns (r: Option<Text>)
    ensures r == Applied(t, change, max)
  {
    var raw := Get(change, "text");
    if !change.Obj? || !IsText(raw) || NUL in raw.value.text {
      return None;
    }
    var range := Get(change, "range");
    var next: Text;
    if range.Undefined? {
      next := raw.value.text;
    } else {
      if !range.value.Obj? {
        return None;
      }
      var start := PositionToOffset(t, Get(range.value, "start"));
      var end := PositionToOffset(t, Get(range.value, "end"));
      var length := Get(change, "rangeLength");
      if start.Some? && end.Some? {
        OffsetEmbedsOrder(t, PositionFrom(Get(range.value, "end")), PositionFrom(Get(range.value, "start")));
      }
      if start.None? || end.None? || start.value > end.value || (length.Defined? && !IsIndex(length)) {
        return None;
      }
      next := t[..start.value] + raw.value.text + t[end.value..];
    }
    r := if NUL !in next && Utf8Length(next) <= max then Some(next) else None;
  }

  /** A range change keeps every code unit outside the range and nothing inside it. */
  lemma RangeIsSpliced(t: Text, change: Json)
    requires Applicable(t, change) && Get(change, "range").Defined?
    ensures var range := Get(change, "range").value;
            var a := Offset(t, PositionFrom(Get(range, "start")));
            var b := Offset(t, PositionFrom(Get(range, "end")));
            var text := Get(change, "text").value.text;
            var t' := Changed(t, change);
            && a <= b
            && |t'| == |t| - (b - a) + |text|
            && (forall i :: 0 <= i < a ==> t'[i] == t[i])
            && (forall i :: 0 <= i < |text| ==> t'[a + i] == text[i])
            && (forall i :: b <= i < |t| ==> t'[i - b + a + |text|] == t[i])
  {
    var range := Get(change, "range").value;
    OffsetEmbedsOrder(t, PositionFrom(Get(range, "end")), PositionFrom(Get(range, "start")));
  }

  /**
   After an edit, the inserted text can be addressed as a range exactly when neither of its ends
   falls just after a line-final carriage return, and then putting the old text back in that
   range undoes the edit.
   */
  lemma EditIsUndone(t: Text, p: Position, q: Position, x: Text)
    requires Valid(t, p) && Valid(t, q) && !Before(q, p)
    ensures var t' := Splice(t, p, q, x);
            var a, b := Offset(t, p), Offset(t, q);
            var p', q' := PositionOf(t', a), PositionOf(t', a + |x|);
            && a <= b
            && (Valid(t', p') && Valid(t', q') <==> !AfterFinalCr(t', a) && !AfterFinalCr(t', a + |x|))
            && (Valid(t', p') && Valid(t', q') ==> !Before(q', p') && Splice(t', p', q', t[a..b]) == t)
  {
    hide PositionOf, Valid, Offset, Before;
    OffsetEmbedsOrder(t, p, q);
    OffsetEmbedsOrder(t, q, p);
    var t' := Splice(t, p, q, x);
    var a, b := Offset(t, p), Offset(t, q);
    OffsetOfPosition(t', a);
    OffsetOfPosition(t', a + |x|);
    var p', q' := PositionOf(t', a), PositionOf(t', a + |x|);
    if Valid(t', p') && Valid(t', q') {
      OffsetEmbedsOrder(t', q', p');
      assert t'[..a] == t[..a] && t'[a + |x|..] == t[b..];
      assert t == t[..a] + t[a..b] + t[b..];
    }
  }

  /** No position denotes the end of a carriage return typed at the end of the text. */
  lemma LoneReturnCannotBeUndone(t: Text, p: Position, end: Position)
    requires Valid(t, p) && Offset(t, p) == |t|
    requires Valid(Splice(t, p, p, [CR]), end)
    ensures Offset(Splice(t, p, p, [CR]), end) != |t| + 1
  {
    PositionOfOffset(Splice(t, p, p, [CR]), end);
  }
}
