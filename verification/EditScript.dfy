/** Diff operations, the edit script made of them, and replaying it. */
module EditScript {
  import opened Prelude

  datatype Line = Line(text: string)

  /** Line ranges are half-open; `old_` ranges index the base, `new_` ranges the target. */
  datatype DiffOp =
    | Equal(oldStart: nat, oldEnd: nat, newStart: nat, newEnd: nat)
    | Insert(newStart: nat, newEnd: nat)
    | Delete(oldStart: nat, oldEnd: nat)
    | Replace(oldStart: nat, oldEnd: nat, newStart: nat, newEnd: nat)

  datatype Edit = Keep | Drop | Add(line: Line)

  /** Range ends do not precede their starts; the source subtracts them unchecked. */
  predicate Ordered(op: DiffOp) {
    !op.Insert? ==> op.oldStart <= op.oldEnd
  }

  function OldLen(op: DiffOp): nat
    requires Ordered(op)
  {
    if op.Insert? then 0 else op.oldEnd - op.oldStart
  }

  function NewLen(op: DiffOp): nat {
    if op.Delete? || op.newEnd <= op.newStart then 0 else op.newEnd - op.newStart
  }

  // ---- The script ----

  /** `count` lines are kept, as long as the script is shorter than the base. */
  function KeepUpTo(edits: seq<Edit>, limit: nat, count: nat): seq<Edit> {
    if count == 0 then edits
    else
      var e := KeepUpTo(edits, limit, count - 1);
      if |e| < limit then e + [Keep] else e
  }

  function DropLines(edits: seq<Edit>, count: nat): seq<Edit> {
    if count == 0 then edits else DropLines(edits, count - 1) + [Drop]
  }

  function AddLines(edits: seq<Edit>, target: seq<Line>, start: nat, end: nat): seq<Edit>
    decreases end
  {
    if end <= start then edits
    else
      var e := AddLines(edits, target, start, end - 1);
      if end - 1 < |target| then e + [Add(target[end - 1])] else e
  }

  function OpEdits(edits: seq<Edit>, base: seq<Line>, target: seq<Line>, op: DiffOp): seq<Edit>
    requires Ordered(op)
  {
    match op
    case Equal(_, _, _, _) => KeepUpTo(edits, |base|, OldLen(op))
    case Delete(_, _) => DropLines(edits, OldLen(op))
    case Insert(s, e) => AddLines(edits, target, s, e)
    case Replace(_, _, s, e) => AddLines(DropLines(edits, OldLen(op)), target, s, e)
  }

  function Script(base: seq<Line>, target: seq<Line>, ops: seq<DiffOp>): seq<Edit>
    requires forall op :: op in ops ==> Ordered(op)
  {
    if ops == [] then [] else OpEdits(Script(base, target, ops[..|ops| - 1]), base, target, ops[|ops| - 1])
  }

  method ToEditScript(base: seq<Line>, target: seq<Line>, ops: seq<DiffOp>) returns (edits: seq<Edit>)
    requires forall op :: op in ops ==> Ordered(op)
    ensures edits == Script(base, target, ops)
  {
    edits := [];
    for k := 0 to |ops|
      invariant edits == Script(base, target, ops[..k])
    {
      var op := ops[k];
      assert ops[..k + 1][..k] == ops[..k];
      assert op in ops;
      match op {
        case Equal(oldStart, oldEnd, _, _) =>
          edits := PushKeeps(edits, |base|, oldEnd - oldStart);
        case Delete(oldStart, oldEnd) =>
          edits := PushDrops(edits, oldEnd - oldStart);
        case Insert(newStart, newEnd) =>
          edits := PushInsertions(edits, target, newStart, newEnd);
        case Replace(oldStart, oldEnd, newStart, newEnd) =>
          edits := PushDrops(edits, oldEnd - oldStart);
          edits := PushInsertions(edits, target, newStart, newEnd);
      }
    }
    assert ops[..|ops|] == ops;
  }

  method PushKeeps(e0: seq<Edit>, limit: nat, count: nat) returns (edits: seq<Edit>)
    ensures edits == KeepUpTo(e0, limit, count)
  {
    edits := e0;
    for c := 0 to count
      invariant edits == KeepUpTo(e0, limit, c)
    {
      if |edits| < limit {
        edits := edits + [Keep];
      }
    }
  }

  method PushDrops(e0: seq<Edit>, count: nat) returns (edits: seq<Edit>)
    ensures edits == DropLines(e0, count)
  {
    edits := e0;
    for c := 0 to count
      invariant edits == DropLines(e0, c)
    {
      edits := edits + [Drop];
    }
  }

  method PushInsertions(e0: seq<Edit>, target: seq<Line>, newStart: nat, newEnd: nat) returns (edits: seq<Edit>)
    ensures edits == AddLines(e0, target, newStart, newEnd)
  {
    edits := e0;
    var i := newStart;
    while i < newEnd
      invariant newStart <= i && (i <= newEnd || i == newStart)
      invariant edits == AddLines(e0, target, newStart, i)
    {
      if i < |target| {
        edits := edits + [Add(target[i])];
      }
      i := i + 1;
    }
  }

  // ---- Replay ----

  /** The lines of the base consumed so far and the text produced. */
  datatype Text = Text(consumed: nat, out: seq<Line>)

  function ReplayEdit(base: seq<Line>, t: Text, e: Edit): Text {
    match e
    case Keep => if t.consumed < |base| then Text(t.consumed + 1, t.out + [base[t.consumed]]) else t
    case Drop => Text(t.consumed + 1, t.out)
    case Add(line) => Text(t.consumed, t.out + [line])
  }

  /** Replaying from the start of the base. */
  function Replay(base: seq<Line>, edits: seq<Edit>): Text {
    if edits == [] then Text(0, []) else ReplayEdit(base, Replay(base, edits[..|edits| - 1]), edits[|edits| - 1])
  }

  // ---- Operation lists that tile base and target ----

  predicate Fits(base: seq<Line>, target: seq<Line>, op: DiffOp, i: nat, j: nat) {
    match op
    case Equal(os, oe, ns, ne) =>
      os == i <= oe <= |base| && ns == j <= ne <= |target| && oe - os == ne - ns
    case Insert(ns, ne) => ns == j <= ne <= |target|
    case Delete(os, oe) => os == i <= oe <= |base|
    case Replace(os, oe, ns, ne) => os == i <= oe <= |base| && ns == j <= ne <= |target|
  }

  /** Where the operations end in base and target if each starts where the last one ended. */
  function TiledTo(base: seq<Line>, target: seq<Line>, ops: seq<DiffOp>): Option<(nat, nat)> {
    if ops == [] then Some((0, 0))
    else match TiledTo(base, target, ops[..|ops| - 1])
         case None => None
         case Some((i, j)) =>
           var op := ops[|ops| - 1];
           if Fits(base, target, op, i, j) && Ordered(op) then Some((i + OldLen(op), j + NewLen(op))) else None
  }

  predicate Tiles(base: seq<Line>, target: seq<Line>, ops: seq<DiffOp>) {
    TiledTo(base, target, ops) == Some((|base|, |target|))
  }

  /** The lines of an equal range are the same in base and target. */
  predicate Agrees(base: seq<Line>, target: seq<Line>, op: DiffOp) {
    op.Equal? ==>
      && op.oldStart <= op.oldEnd <= |base| && op.newStart <= op.newEnd <= |target|
      && base[op.oldStart..op.oldEnd] == target[op.newStart..op.newEnd]
  }

  ghost predicate RangesAgree(base: seq<Line>, target: seq<Line>, ops: seq<DiffOp>) {
    forall op :: op in ops ==> Agrees(base, target, op)
  }

  lemma RangesPrefix(base: seq<Line>, target: seq<Line>, ops: seq<DiffOp>)
    requires ops != []
    ensures RangesAgree(base, target, ops)
       <==> RangesAgree(base, target, ops[..|ops| - 1]) && Agrees(base, target, ops[|ops| - 1])
  {
    assert ops == ops[..|ops| - 1] + [ops[|ops| - 1]];
  }

  function Inserted(ops: seq<DiffOp>): nat {
    if ops == [] then 0
    else Inserted(ops[..|ops| - 1]) + if ops[|ops| - 1].Equal? then 0 else NewLen(ops[|ops| - 1])
  }

  predicate LineFits(x: nat, inserted: nat, limit: nat) { x + inserted < limit }

  ghost predicate OpFits(op: DiffOp, inserted: nat, limit: nat) {
    op.Equal? ==> forall x :: op.oldStart <= x < op.oldEnd ==> LineFits(x, inserted, limit)
  }

  /** Each kept base line `x` has `x` plus the insertions before it below the base's length. */
  ghost predicate KeepsFit(base: seq<Line>, ops: seq<DiffOp>) {
    forall n :: 0 <= n < |ops| ==> OpFits(ops[n], Inserted(ops[..n]), |base|)
  }

  lemma LastLineDecides(op: DiffOp, inserted: nat, limit: nat)
    requires op.Equal? && op.oldStart < op.oldEnd
    ensures OpFits(op, inserted, limit) <==> op.oldEnd - 1 + inserted < limit
  {
    if op.oldEnd - 1 + inserted >= limit {
      assert !LineFits(op.oldEnd - 1, inserted, limit);
    }
  }

  lemma {:induction false} TilesAreOrdered(base: seq<Line>, target: seq<Line>, ops: seq<DiffOp>)
    requires TiledTo(base, target, ops).Some?
    ensures forall op :: op in ops ==> Ordered(op)
    ensures var (i, j) := TiledTo(base, target, ops).value; i <= |base| && j <= |target|
  {
    if ops != [] {
      TilesAreOrdered(base, target, ops[..|ops| - 1]);
      assert ops == ops[..|ops| - 1] + [ops[|ops| - 1]];
    }
  }

  function Produced(edits: seq<Edit>): nat {
    if edits == [] then 0 else Produced(edits[..|edits| - 1]) + if edits[|edits| - 1].Drop? then 0 else 1
  }

  lemma {:induction false} ReplayLength(base: seq<Line>, edits: seq<Edit>)
    ensures |Replay(base, edits).out| <= Produced(edits)
  {
    if edits != [] {
      ReplayLength(base, edits[..|edits| - 1]);
    }
  }

  lemma ReplaySnoc(base: seq<Line>, edits: seq<Edit>, e: Edit)
    ensures Replay(base, edits + [e]) == ReplayEdit(base, Replay(base, edits), e)
    ensures Produced(edits + [e]) == Produced(edits) + if e.Drop? then 0 else 1
  {}

  /** `out` with the `n` lines from `lo` on pushed one by one. */
  function Push(out: seq<Line>, lines: seq<Line>, lo: nat, n: nat): seq<Line>
    requires lo + n <= |lines|
  {
    if n == 0 then out else Push(out, lines, lo, n - 1) + [lines[lo + n - 1]]
  }

  lemma {:induction false} PushIsSlice(out: seq<Line>, lines: seq<Line>, lo: nat, n: nat)
    requires lo + n <= |lines|
    ensures Push(out, lines, lo, n) == out + lines[lo..lo + n]
  {
    if n > 0 {
      PushIsSlice(out, lines, lo, n - 1);
    }
  }

  function KeepLines(edits: seq<Edit>, count: nat): seq<Edit> {
    if count == 0 then edits else KeepLines(edits, count - 1) + [Keep]
  }

  /** Within the limit, every line is kept. */
  lemma {:induction false} AllKept(edits: seq<Edit>, limit: nat, count: nat)
    requires |edits| + count <= limit
    ensures KeepUpTo(edits, limit, count) == KeepLines(edits, count)
    ensures |KeepLines(edits, count)| == |edits| + count
  {
    if count > 0 {
      AllKept(edits, limit, count - 1);
    }
  }

  lemma {:induction false} KeepsReplay(base: seq<Line>, edits: seq<Edit>, count: nat, t: Text)
    requires t == Replay(base, edits) && t.consumed + count <= |base|
    ensures Replay(base, KeepLines(edits, count)) == Text(t.consumed + count, Push(t.out, base, t.consumed, count))
  {
    if count > 0 {
      var a := KeepLines(edits, count - 1);
      KeepsReplay(base, edits, count - 1, t);
      KeepOneMore(base, a, Text(t.consumed + count - 1, Push(t.out, base, t.consumed, count - 1)));
    }
  }

  lemma KeepOneMore(base: seq<Line>, a: seq<Edit>, u: Text)
    requires u == Replay(base, a) && u.consumed < |base|
    ensures Replay(base, a + [Keep]) == Text(u.consumed + 1, u.out + [base[u.consumed]])
  {}

  lemma {:induction false} DropsReplay(base: seq<Line>, edits: seq<Edit>, count: nat)
    ensures var e, t := DropLines(edits, count), Replay(base, edits);
            && |e| == |edits| + count && Produced(e) == Produced(edits)
            && Replay(base, e) == Text(t.consumed + count, t.out)
  {
    if count > 0 {
      DropsReplay(base, edits, count - 1);
      ReplaySnoc(base, DropLines(edits, count - 1), Drop);
    }
  }

  lemma {:induction false} AddsReplay(base: seq<Line>, target: seq<Line>, edits: seq<Edit>, s: nat, e: nat)
    requires s <= e <= |target|
    ensures var es, t := AddLines(edits, target, s, e), Replay(base, edits);
            && |es| == |edits| + (e - s) && Produced(es) == Produced(edits) + (e - s)
            && Replay(base, es) == Text(t.consumed, Push(t.out, target, s, e - s))
    decreases e
  {
    if s < e {
      var es := AddLines(edits, target, s, e - 1);
      AddsReplay(base, target, edits, s, e - 1);
      ReplaySnoc(base, es, Add(target[e - 1]));
      assert AddLines(edits, target, s, e) == es + [Add(target[e - 1])];
      assert s + (e - 1 - s) == e - 1;
      assert Push(Replay(base, edits).out, target, s, e - s)
          == Push(Replay(base, edits).out, target, s, e - 1 - s) + [target[e - 1]];
    }
  }

  /** Keeping adds at most `count` lines, and fewer when the script reaches the limit. */
  lemma {:induction false} KeepsProduce(base: seq<Line>, edits: seq<Edit>, limit: nat, count: nat)
    ensures var e := KeepUpTo(edits, limit, count);
            && Produced(e) - Produced(edits) == |e| - |edits| >= 0
            && |e| <= |edits| + count
            && (count > 0 && |edits| + count > limit ==> |e| < |edits| + count)
  {
    if count > 0 {
      KeepsProduce(base, edits, limit, count - 1);
      ReplaySnoc(base, KeepUpTo(edits, limit, count - 1), Keep);
    }
  }

  lemma FitsPrefix(base: seq<Line>, ops: seq<DiffOp>)
    requires ops != []
    ensures var n := |ops| - 1;
            KeepsFit(base, ops) <==> KeepsFit(base, ops[..n]) && OpFits(ops[n], Inserted(ops[..n]), |base|)
  {
    var n := |ops| - 1;
    forall k | 0 <= k < n ensures ops[..n][k] == ops[k] && ops[..n][..k] == ops[..k] {}
    if KeepsFit(base, ops) {
      forall k | 0 <= k < n ensures OpFits(ops[..n][k], Inserted(ops[..n][..k]), |base|) {
        assert OpFits(ops[k], Inserted(ops[..k]), |base|);
      }
    }
    if KeepsFit(base, ops[..n]) && OpFits(ops[n], Inserted(ops[..n]), |base|) {
      forall k | 0 <= k < |ops| ensures OpFits(ops[k], Inserted(ops[..k]), |base|) {
        assert k < n ==> OpFits(ops[..n][k], Inserted(ops[..n][..k]), |base|);
      }
    }
  }

  /** The state of a script after operations that end at `i` in the base and `j` in the
      target: while all keeps fit, the replay has produced as many lines as the target has so
      far, and its very lines while the ranges agree; after a keep that did not fit, the
      script produces too few lines. */
  ghost predicate OnTrack(base: seq<Line>, target: seq<Line>, edits: seq<Edit>, i: nat, j: nat, inserted: nat,
                          fit: bool, agree: bool) {
    && i <= |base| && j <= |target|
    && (fit ==>
          && |edits| == i + inserted && Produced(edits) == j
          && var t := Replay(base, edits); t.consumed == i && |t.out| == j && (t.out == target[..j] <==> agree))
    && (!fit ==> Produced(edits) < j)
  }

  lemma {:induction false} ReplayPrefix(base: seq<Line>, target: seq<Line>, ops: seq<DiffOp>, i: nat, j: nat)
    requires TiledTo(base, target, ops) == Some((i, j)) && forall op :: op in ops ==> Ordered(op)
    ensures OnTrack(base, target, Script(base, target, ops), i, j, Inserted(ops), KeepsFit(base, ops),
                    RangesAgree(base, target, ops))
  {
    if ops == [] {
      assert target[..0] == [];
    } else {
      var init, op := ops[..|ops| - 1], ops[|ops| - 1];
      assert op in ops && forall o :: o in init ==> o in ops;
      var (i0, j0) := TiledTo(base, target, init).value;
      ReplayPrefix(base, target, init, i0, j0);
      ReplayOp(base, target, Script(base, target, init), op, i0, j0, Inserted(init), KeepsFit(base, init),
               RangesAgree(base, target, init));
      FitsPrefix(base, ops);
      RangesPrefix(base, target, ops);
    }
  }

  lemma ReplayOp(base: seq<Line>, target: seq<Line>, edits: seq<Edit>, op: DiffOp, i: nat, j: nat, ins: nat, fit: bool,
                 agree: bool)
    requires Ordered(op) && Fits(base, target, op, i, j) && OnTrack(base, target, edits, i, j, ins, fit, agree)
    ensures OnTrack(base, target, OpEdits(edits, base, target, op), i + OldLen(op), j + NewLen(op),
                    ins + (if op.Equal? then 0 else NewLen(op)), fit && OpFits(op, ins, |base|),
                    agree && Agrees(base, target, op))
  {
    if op.Equal? {
      ReplayKeep(base, target, edits, op, i, j, ins, fit, agree);
    } else if op.Insert? {
      ReplayAdds(base, target, edits, i, j, op.newEnd, ins, fit, agree);
    } else if op.Delete? {
      ReplayDrops(base, target, edits, i, j, OldLen(op), ins, fit, agree);
    } else {
      ReplayReplace(base, target, edits, op, i, j, ins, fit, agree);
    }
  }

  lemma ReplayReplace(base: seq<Line>, target: seq<Line>, edits: seq<Edit>, op: DiffOp, i: nat, j: nat, ins: nat,
                      fit: bool, agree: bool)
    requires op.Replace? && Ordered(op) && Fits(base, target, op, i, j)
    requires OnTrack(base, target, edits, i, j, ins, fit, agree)
    ensures OnTrack(base, target, OpEdits(edits, base, target, op), i + OldLen(op), j + NewLen(op), ins + NewLen(op),
                    fit, agree)
  {
    var dropped := DropLines(edits, OldLen(op));
    ReplayDrops(base, target, edits, i, j, OldLen(op), ins, fit, agree);
    ReplayAdds(base, target, dropped, i + OldLen(op), j, op.newEnd, ins, fit, agree);
    assert OpEdits(edits, base, target, op) == AddLines(dropped, target, j, op.newEnd);
  }

  /** Kept lines that fit are copied from the base. */
  lemma KeepsCopy(base: seq<Line>, edits: seq<Edit>, i: nat, count: nat, t: Text)
    requires i + count <= |base| && |edits| + count <= |base| && Replay(base, edits) == t && t.consumed == i
    ensures var e := KeepUpTo(edits, |base|, count);
            |e| == |edits| + count && Replay(base, e) == Text(i + count, t.out + base[i..i + count])
  {
    AllKept(edits, |base|, count);
    KeepsReplay(base, edits, count, t);
    PushIsSlice(t.out, base, i, count);
  }

  /** Appending lines to `out` keeps it in step with the target if and only if they are the
      target's next ones. */
  lemma StaysInStep(out: seq<Line>, lines: seq<Line>, target: seq<Line>, j: nat)
    requires |out| == j && j + |lines| <= |target|
    ensures out + lines == target[..j + |lines|] <==> out == target[..j] && lines == target[j..j + |lines|]
  {
    assert target[..j + |lines|] == target[..j] + target[j..j + |lines|];
    assert (out + lines)[..j] == out && (out + lines)[j..] == lines;
    assert target[..j + |lines|][..j] == target[..j] && target[..j + |lines|][j..] == target[j..j + |lines|];
  }

  lemma ReplayKeep(base: seq<Line>, target: seq<Line>, edits: seq<Edit>, op: DiffOp, i: nat, j: nat, ins: nat,
                   fit: bool, agree: bool)
    requires op.Equal? && Ordered(op) && Fits(base, target, op, i, j)
    requires OnTrack(base, target, edits, i, j, ins, fit, agree)
    ensures OnTrack(base, target, KeepUpTo(edits, |base|, OldLen(op)), i + OldLen(op), j + NewLen(op), ins,
                    fit && OpFits(op, ins, |base|), agree && Agrees(base, target, op))
  {
    var count := OldLen(op);
    var e := KeepUpTo(edits, |base|, count);
    KeepsProduce(base, edits, |base|, count);
    assert NewLen(op) == count;
    if count == 0 {
      assert e == edits;
    } else {
      LastLineDecides(op, ins, |base|);
      if fit && OpFits(op, ins, |base|) {
        var t := Replay(base, edits);
        KeepsCopy(base, edits, i, count, t);
        StaysInStep(t.out, base[i..i + count], target, j);
      } else {
        assert Produced(e) < j + count;
      }
    }
  }

  lemma ReplayDrops(base: seq<Line>, target: seq<Line>, edits: seq<Edit>, i: nat, j: nat, count: nat, ins: nat,
                    fit: bool, agree: bool)
    requires OnTrack(base, target, edits, i, j, ins, fit, agree) && i + count <= |base|
    ensures OnTrack(base, target, DropLines(edits, count), i + count, j, ins, fit, agree)
  {
    DropsReplay(base, edits, count);
  }

  lemma ReplayAdds(base: seq<Line>, target: seq<Line>, edits: seq<Edit>, i: nat, j: nat, end: nat, ins: nat, fit: bool,
                   agree: bool)
    requires OnTrack(base, target, edits, i, j, ins, fit, agree) && j <= end <= |target|
    ensures OnTrack(base, target, AddLines(edits, target, j, end), i, end, ins + (end - j), fit, agree)
  {
    var t := Replay(base, edits);
    AddsReplay(base, target, edits, j, end);
    PushIsSlice(t.out, target, j, end - j);
    if fit {
      StaysInStep(t.out, target[j..end], target, j);
    }
  }

  /** For every tiling, replaying the script over the base yields the target if and only
      if every kept line fits and the equal ranges are equal. */
  lemma ScriptReplays(base: seq<Line>, target: seq<Line>, ops: seq<DiffOp>)
    requires Tiles(base, target, ops)
    ensures forall op :: op in ops ==> Ordered(op)
    ensures Replay(base, Script(base, target, ops)).out == target
       <==> KeepsFit(base, ops) && RangesAgree(base, target, ops)
  {
    TilesAreOrdered(base, target, ops);
    ReplayPrefix(base, target, ops, |base|, |target|);
    ReplayLength(base, Script(base, target, ops));
    assert target[..|target|] == target;
  }

  /** A line inserted before a kept one is enough to lose the kept one. */
  lemma InsertionBeforeKeep(a: Line, x: Line)
    ensures var ops := [Insert(0, 1), Equal(0, 1, 1, 2)];
            Tiles([a], [x, a], ops) && (forall op :: op in ops ==> Ordered(op)) && RangesAgree([a], [x, a], ops)
            && Replay([a], Script([a], [x, a], ops)).out != [x, a]
  {
    var base, target, ops := [a], [x, a], [Insert(0, 1), Equal(0, 1, 1, 2)];
    assert ops[..1] == [Insert(0, 1)] && ops[..1][..0] == [];
    assert TiledTo(base, target, ops[..1]) == Some((0, 1));
    assert base[0..1] == [a] == target[1..2];
    assert Inserted(ops[..1]) == 1;
    LastLineDecides(ops[1], 1, 1);
    assert !OpFits(ops[1], Inserted(ops[..1]), |base|);
    ScriptReplays(base, target, ops);
  }

  /** A tiling whose equal range is not equal replays to another text. */
  lemma RangeDisagrees(a: Line, b: Line)
    requires a != b
    ensures var ops := [Delete(0, 1), Equal(1, 2, 0, 1)];
            Tiles([a, b], [a], ops) && KeepsFit([a, b], ops) && (forall op :: op in ops ==> Ordered(op))
            && Replay([a, b], Script([a, b], [a], ops)).out != [a]
  {
    var base, target, ops := [a, b], [a], [Delete(0, 1), Equal(1, 2, 0, 1)];
    assert ops[..1] == [Delete(0, 1)] && ops[..1][..0] == [];
    assert TiledTo(base, target, ops[..1]) == Some((1, 0));
    assert base[1..2] == [b] && target[0..1] == [a] && ops[1] in ops;
    assert !Agrees(base, target, ops[1]);
    assert Inserted(ops[..1]) == 0;
    LastLineDecides(ops[1], 0, 2);
    FitsPrefix(base, ops);
    ScriptReplays(base, target, ops);
  }

  // ---- apply_diff ----

  /** The base lines of the equal ranges, as far as they exist. */
  function KeptLines(base: seq<Line>, ops: seq<DiffOp>): seq<Line> {
    if ops == [] then []
    else
      var kept, op := KeptLines(base, ops[..|ops| - 1]), ops[|ops| - 1];
      if op.Equal? && op.oldStart <= op.oldEnd then kept + Slice(base, op.oldStart, op.oldEnd) else kept
  }

  function Slice(base: seq<Line>, start: nat, end: nat): seq<Line>
    requires start <= end
  {
    var e := if end <= |base| then end else |base|;
    if start <= e then base[start..e] else []
  }

  method ApplyDiff(base: seq<Line>, ops: seq<DiffOp>) returns (result: seq<Line>)
    ensures result == KeptLines(base, ops)
  {
    result := [];
    for k := 0 to |ops|
      invariant result == KeptLines(base, ops[..k])
    {
      assert ops[..k + 1][..k] == ops[..k];
      if ops[k].Equal? {
        result := PushRange(result, base, ops[k].oldStart, ops[k].oldEnd);
      }
    }
    assert ops[..|ops|] == ops;
  }

  method PushRange(kept: seq<Line>, base: seq<Line>, start: nat, end: nat) returns (result: seq<Line>)
    ensures result == if start <= end then kept + Slice(base, start, end) else kept
  {
    result := kept;
    var i := start;
    while i < end
      invariant start <= i && (i <= end || i == start)
      invariant result == kept + Slice(base, start, i)
    {
      if i < |base| {
        result := result + [base[i]];
      }
      i := i + 1;
    }
    assert kept + [] == kept;
  }

  /** `a` can be got from `b` by deleting lines. */
  ghost predicate Subsequence(a: seq<Line>, b: seq<Line>)
    decreases b
  {
    a == [] || (b != [] && (Subsequence(a, b[..|b| - 1])
                            || (a[|a| - 1] == b[|b| - 1] && Subsequence(a[..|a| - 1], b[..|b| - 1]))))
  }

  lemma {:induction false} SubsequenceSkips(a: seq<Line>, b: seq<Line>, c: seq<Line>)
    requires Subsequence(a, b)
    ensures Subsequence(a, b + c)
  {
    if c == [] {
      assert b + c == b;
    } else {
      SubsequenceSkips(a, b, c[..|c| - 1]);
      assert (b + c)[..|b + c| - 1] == b + c[..|c| - 1];
    }
  }

  lemma {:induction false} SubsequenceExtends(a: seq<Line>, b: seq<Line>, c: seq<Line>)
    requires Subsequence(a, b)
    ensures Subsequence(a + c, b + c)
  {
    if c == [] {
      assert b + c == b && a + c == a;
    } else {
      SubsequenceExtends(a, b, c[..|c| - 1]);
      assert (b + c)[..|b + c| - 1] == b + c[..|c| - 1] && (a + c)[..|a + c| - 1] == a + c[..|c| - 1];
    }
  }

  lemma {:induction false} KeptIsCommonTo(base: seq<Line>, target: seq<Line>, ops: seq<DiffOp>, i: nat, j: nat)
    requires TiledTo(base, target, ops) == Some((i, j))
    ensures i <= |base| && j <= |target|
    ensures Subsequence(KeptLines(base, ops), base[..i])
    ensures RangesAgree(base, target, ops) ==> Subsequence(KeptLines(base, ops), target[..j])
  {
    if ops != [] {
      var op, init := ops[|ops| - 1], ops[..|ops| - 1];
      var (i0, j0) := TiledTo(base, target, init).value;
      KeptIsCommonTo(base, target, init, i0, j0);
      RangesPrefix(base, target, ops);
      CommonOneMore(base, target, KeptLines(base, init), op, i0, j0);
    }
  }

  lemma CommonOneMore(base: seq<Line>, target: seq<Line>, kept: seq<Line>, op: DiffOp, i: nat, j: nat)
    requires i <= |base| && j <= |target| && Ordered(op) && Fits(base, target, op, i, j)
    requires Subsequence(kept, base[..i])
    ensures var kept' := if op.Equal? then kept + Slice(base, op.oldStart, op.oldEnd) else kept;
            && i + OldLen(op) <= |base| && j + NewLen(op) <= |target| && Subsequence(kept', base[..i + OldLen(op)])
            && (Subsequence(kept, target[..j]) && Agrees(base, target, op) ==>
                  Subsequence(kept', target[..j + NewLen(op)]))
  {
    Grow(kept, base, i, i + OldLen(op));
    if Subsequence(kept, target[..j]) {
      Grow(kept, target, j, j + NewLen(op));
    }
  }

  /** A subsequence of the lines before `i` stays one up to `i2`, with or without the
      lines in between. */
  lemma Grow(a: seq<Line>, lines: seq<Line>, i: nat, i2: nat)
    requires i <= i2 <= |lines| && Subsequence(a, lines[..i])
    ensures Subsequence(a, lines[..i2]) && Subsequence(a + lines[i..i2], lines[..i2])
  {
    assert lines[..i2] == lines[..i] + lines[i..i2];
    SubsequenceExtends(a, lines[..i], lines[i..i2]);
    SubsequenceSkips(a, lines[..i], lines[i..i2]);
  }

  /** What `apply_diff` returns for a tiling is a subsequence of the base, and of the target
      too when the equal ranges are equal. */
  lemma KeptIsCommon(base: seq<Line>, target: seq<Line>, ops: seq<DiffOp>)
    requires Tiles(base, target, ops)
    ensures Subsequence(KeptLines(base, ops), base)
    ensures RangesAgree(base, target, ops) ==> Subsequence(KeptLines(base, ops), target)
  {
    KeptIsCommonTo(base, target, ops, |base|, |target|);
    assert base[..|base|] == base && target[..|target|] == target;
  }

  lemma {:induction false} KeptCounts(base: seq<Line>, target: seq<Line>, ops: seq<DiffOp>, i: nat, j: nat)
    requires TiledTo(base, target, ops) == Some((i, j))
    ensures i <= |base| && j <= |target|
    ensures |KeptLines(base, ops)| + Inserted(ops) == j
    ensures Inserted(ops) == 0 ==> (KeptLines(base, ops) == target[..j] <==> RangesAgree(base, target, ops))
  {
    if ops != [] {
      var op, init := ops[|ops| - 1], ops[..|ops| - 1];
      var (i0, j0) := TiledTo(base, target, init).value;
      KeptCounts(base, target, init, i0, j0);
      RangesPrefix(base, target, ops);
      if op.Equal? {
        assert Slice(base, op.oldStart, op.oldEnd) == base[op.oldStart..op.oldEnd];
        if Inserted(ops) == 0 {
          StaysInStep(KeptLines(base, init), Slice(base, op.oldStart, op.oldEnd), target, j0);
        }
      }
    }
  }

  /** `apply_diff` reconstructs the target, as documented, exactly for tilings that insert
      nothing and whose equal ranges are equal. */
  lemma KeptIsTarget(base: seq<Line>, target: seq<Line>, ops: seq<DiffOp>)
    requires Tiles(base, target, ops)
    ensures KeptLines(base, ops) == target <==> Inserted(ops) == 0 && RangesAgree(base, target, ops)
  {
    KeptCounts(base, target, ops, |base|, |target|);
    assert target[..|target|] == target;
  }

  /** The shortest failing input: one inserted line. */
  lemma InsertionIsLost(x: Line)
    ensures Tiles([], [x], [Insert(0, 1)]) && KeptLines([], [Insert(0, 1)]) == [] != [x]
  {
    assert [Insert(0, 1)][..0] == [];
    assert TiledTo([], [x], [Insert(0, 1)][..0]) == Some((0, 0));
  }
}
