/** Passes over alias operations whose local parts may carry padding, which address building
    admits: the agent reads such a line back under the trimmed key and does not find it again. */
module PaddedAliases {
  import opened Text
  import opened AliasFile

  /** An operation as address building yields it, padding included. */
  predicate PlainOp(op: Op) {
    op.local != "" && ':' !in op.local && '\n' !in op.local && GoodDests(op.dests)
  }

  predicate PlainOps(ops: seq<Op>) {
    forall op :: op in ops ==> PlainOp(op)
  }

  /** The key under which the operation's line is read back. */
  function ReadKey(op: Op): string {
    Lower(Trim(op.local))
  }

  /** The line the operation adds, as it is read back. */
  function Seen(op: Op): seq<string> {
    if op.dests == [] then [] else [TrimLeft(op.local) + ": " + Join(op.dests, ", ")]
  }

  /** The lines read back after one operation, and after all of them. */
  function Reset(ls: seq<string>, op: Op): seq<string> {
    Drop(ls, {Lower(op.local)}) + Seen(op)
  }

  function ResetAll(ls: seq<string>, ops: seq<Op>): seq<string> {
    if ops == [] then ls else Reset(ResetAll(ls, ops[..|ops| - 1]), ops[|ops| - 1])
  }

  /** The keys of the operations without padding. */
  function Found(ops: seq<Op>): set<string> {
    set op | op in ops && Trimmed(op.local) :: Lower(op.local)
  }

  lemma FoundSplit(ops: seq<Op>)
    requires ops != []
    ensures var last := ops[|ops| - 1];
      Found(ops) == Found(ops[..|ops| - 1]) + if Trimmed(last.local) then {Lower(last.local)} else {}
    ensures ops[|ops| - 1] in ops
    ensures PlainOps(ops) ==> PlainOps(ops[..|ops| - 1])
  {
    assert ops == ops[..|ops| - 1] + [ops[|ops| - 1]];
  }

  // ---------- Reading back ----------

  lemma TrimOfTrimLeft(s: string)
    ensures Trim(TrimLeft(s)) == Trim(s)
  {
    assert TrimLeft(TrimLeft(s)) == TrimLeft(s);
  }

  lemma SeenIsRead(op: Op)
    requires PlainOp(op) && op.dests != []
    ensures Trim(AliasLine(op.local, op.dests)) == Seen(op)[0] && IsLine(Seen(op)[0])
    ensures '\n' !in AliasLine(op.local, op.dests)
    ensures KeyOf(Seen(op)[0]) == Some(ReadKey(op))
  {
    hide Trim, TrimLeft, Cut;
    var v, raw := Join(op.dests, ", "), AliasLine(op.local, op.dests);
    JoinEnds(op.dests);
    TrimAliasLine(op.local, v);
    TrimChars(raw, '\n');
    if ':' in TrimLeft(op.local) {
      TrimLeftChars(op.local, ':');
      assert false;
    }
    CutConcat(TrimLeft(op.local), ':', " " + v);
    assert TrimLeft(op.local) + ": " + v == TrimLeft(op.local) + [':'] + (" " + v);
    TrimOfTrimLeft(op.local);
    assert Trimmed(Trim(raw));
  }

  lemma ResetIsRead(ls: seq<string>, op: Op)
    requires AllLines(ls) && PlainOp(op)
    ensures AllLines(Reset(ls, op))
    ensures Lines(Render(SetLines(ls, op))) == Reset(ls, op)
  {
    hide IsLine, Lines, Render;
    var kept := Drop(ls, {Lower(op.local)});
    DropMembers(ls, {Lower(op.local)});
    assert AllLines(kept);
    if op.dests == [] {
      assert SetLines(ls, op) == kept;
      LinesRender(kept);
    } else {
      SeenIsRead(op);
      RereadRaw(kept, AliasLine(op.local, op.dests), Seen(op)[0]);
    }
  }

  lemma {:induction false} ResetAllIsRead(text: string, ops: seq<Op>)
    requires PlainOps(ops)
    ensures AllLines(ResetAll(Lines(text), ops))
    ensures Lines(SetAll(text, ops)) == ResetAll(Lines(text), ops)
  {
    hide Lines, Render, IsLine, Reset;
    if ops == [] {
      LinesAreLines(text);
    } else {
      FoundSplit(ops);
      ResetAllIsRead(text, ops[..|ops| - 1]);
      ResetIsRead(ResetAll(Lines(text), ops[..|ops| - 1]), ops[|ops| - 1]);
    }
  }

  // ---------- What a pass leaves ----------

  /** No line is found under a padded key. */
  lemma PaddedDropsNothing(ls: seq<string>, local: string)
    requires !Trimmed(local)
    ensures Drop(ls, {Lower(local)}) == ls
  {
    forall l | l in ls
      ensures !Owned(l, {Lower(local)})
    {
      if KeyOf(l).Some? {
        LowerTrimmed(Trim(Cut(l, ':').value.0));
        LowerTrimmed(local);
      }
    }
    DropNone(ls, {Lower(local)});
  }

  /** A pass drops what the unpadded operations find and adds lines of its own, whatever was
      there before. */
  lemma {:induction false} PassIs(ls: seq<string>, ops: seq<Op>)
    ensures ResetAll(ls, ops) == Drop(ls, Found(ops)) + ResetAll([], ops)
  {
    hide Drop, Seen, Lower, Trimmed;
    if ops == [] {
      assert Found(ops) == {};
      DropNone(ls, {});
    } else {
      var init, last := ops[..|ops| - 1], ops[|ops| - 1];
      FoundSplit(ops);
      PassIs(ls, init);
      var k := {Lower(last.local)};
      DropConcat(Drop(ls, Found(init)), ResetAll([], init), k);
      if Trimmed(last.local) {
        DropTwice(ls, Found(init), k);
        assert Found(ops) == Found(init) + k;
      } else {
        assert Found(ops) == Found(init);
        PaddedDropsNothing(ResetAll(ls, init), last.local);
        PaddedDropsNothing(ResetAll([], init), last.local);
      }
      assert ResetAll(ls, ops) == Drop(ls, Found(ops)) + Drop(ResetAll([], init), k) + Seen(last);
      Assoc(Drop(ls, Found(ops)), Drop(ResetAll([], init), k), Seen(last));
    }
  }

  lemma Assoc(a: seq<string>, b: seq<string>, c: seq<string>)
    ensures a + b + c == a + (b + c)
  {
  }

  /** Every operation with destinations is read back under the key of an unpadded one. */
  predicate Covered(ops: seq<Op>) {
    forall op :: op in ops && op.dests != [] ==> ReadKey(op) in Found(ops)
  }

  lemma {:induction false} PassLines(ops: seq<Op>, l: string) returns (op: Op)
    requires l in ResetAll([], ops)
    ensures op in ops && l in Seen(op)
  {
    var init, last := ops[..|ops| - 1], ops[|ops| - 1];
    var kept := Drop(ResetAll([], init), {Lower(last.local)});
    DropMembers(ResetAll([], init), {Lower(last.local)});
    if l in Seen(last) {
      op := last;
    } else {
      assert l in kept + Seen(last);
      assert l in kept;
      op := PassLines(init, l);
      assert op in init && ops == init + [last];
    }
  }

  lemma {:induction false} UncoveredStays(ops: seq<Op>, op: Op)
    requires PlainOps(ops) && op in ops && op.dests != [] && ReadKey(op) !in Found(ops)
    ensures Seen(op)[0] in ResetAll([], ops)
  {
    hide Lower, Trimmed, Seen, Drop, PlainOp;
    var init, last := ops[..|ops| - 1], ops[|ops| - 1];
    assert ops == init + [last];
    FoundSplit(ops);
    var before := ResetAll([], init);
    DropMembers(before, {Lower(last.local)});
    assert |Seen(op)| == 1 by {
      OneSeen(op);
    }
    if op in init {
      UncoveredStays(init, op);
      SeenIsRead(op);
      if !Trimmed(last.local) {
        PaddedDropsNothing(before, last.local);
      }
    } else {
      assert op == last;
    }
  }

  lemma OneSeen(op: Op)
    requires op.dests != []
    ensures |Seen(op)| == 1
  {
  }

  /** A pass finds all its own lines again exactly when it is covered. */
  lemma CoveredIff(ops: seq<Op>)
    requires PlainOps(ops)
    ensures Drop(ResetAll([], ops), Found(ops)) == [] <==> Covered(ops)
  {
    hide Seen, PlainOp, Found, ReadKey;
    var own := ResetAll([], ops);
    DropMembers(own, Found(ops));
    if Covered(ops) {
      forall l | l in own
        ensures Owned(l, Found(ops))
      {
        var op := PassLines(ops, l);
        SeenOwned(op, l);
      }
      DropAll(own, Found(ops));
    } else {
      var op :| op in ops && op.dests != [] && ReadKey(op) !in Found(ops);
      OneSeen(op);
      UncoveredStays(ops, op);
      SeenIsRead(op);
      assert Seen(op)[0] in Drop(own, Found(ops));
    }
  }

  lemma SeenOwned(op: Op, l: string)
    requires PlainOp(op) && l in Seen(op)
    ensures op.dests != [] && KeyOf(l) == Some(ReadKey(op))
  {
    SeenIsRead(op);
  }

  // ---------- The second pass ----------

  /** The lines read back after one pass and after two: the second adds what the first left
      without a key to find it. */
  lemma TwoPasses(text: string, ops: seq<Op>)
    requires PlainOps(ops)
    ensures var own := ResetAll([], ops);
      && Lines(SetAll(text, ops)) == Drop(Lines(text), Found(ops)) + own
      && Lines(SetAll(SetAll(text, ops), ops)) == Drop(Lines(text), Found(ops)) + Drop(own, Found(ops)) + own
  {
    hide Lines, SetAll, Drop, ResetAll, PlainOps, Found;
    var u := Found(ops);
    ResetAllIsRead(text, ops);
    ResetAllIsRead(SetAll(text, ops), ops);
    PassIs(Lines(text), ops);
    PassIs(Lines(SetAll(text, ops)), ops);
    DropConcat(Drop(Lines(text), u), ResetAll([], ops), u);
    DropTwice(Lines(text), u, u);
    assert u + u == u;
  }

  /** When the lines read back agree after both passes, so do the texts. */
  lemma SameText(a: string, b: string, ops: seq<Op>)
    requires PlainOps(ops) && ops != [] && Lines(SetAll(a, ops)) == Lines(SetAll(b, ops))
    ensures SetAll(a, ops) == SetAll(b, ops)
  {
    hide Lines, Render, Drop, Seen;
    var init, last := ops[..|ops| - 1], ops[|ops| - 1];
    FoundSplit(ops);
    ResetAllIsRead(a, ops);
    ResetAllIsRead(b, ops);
    ResetAllIsRead(a, init);
    ResetAllIsRead(b, init);
    var k := {Lower(last.local)};
    var x, y := Drop(ResetAll(Lines(a), init), k), Drop(ResetAll(Lines(b), init), k);
    assert x + Seen(last) == y + Seen(last);
    SameFront(x, y, Seen(last));
  }

  lemma SameFront(x: seq<string>, y: seq<string>, z: seq<string>)
    requires x + z == y + z
    ensures x == y
  {
    assert |x| == |y|;
    assert x == (x + z)[..|x|] && y == (y + z)[..|y|];
  }

  /** Repeating a pass over any aliases changes nothing exactly when each alias with
      destinations is, as read back, under the key of an alias of the pass without padding;
      otherwise every repetition makes the file longer. */
  lemma SecondPassIsIdentityIff(text: string, ops: seq<Op>)
    requires PlainOps(ops)
    ensures SetAll(SetAll(text, ops), ops) == SetAll(text, ops) <==> Covered(ops)
    ensures !Covered(ops) ==> |Lines(SetAll(SetAll(text, ops), ops))| > |Lines(SetAll(text, ops))|
  {
    hide Lines, Drop, ResetAll, PlainOps, Found, Covered;
    if ops == [] {
      assert Covered([]) by {
        NothingToCover();
      }
    } else {
      TwoPasses(text, ops);
      CoveredIff(ops);
      if Covered(ops) {
        assert Drop(Lines(text), Found(ops)) + [] == Drop(Lines(text), Found(ops));
        SameText(SetAll(text, ops), text, ops);
      }
    }
  }

  lemma NothingToCover()
    ensures Covered([])
  {
  }
}
