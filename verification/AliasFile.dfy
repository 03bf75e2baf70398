/** The text of a mail domain's alias file, and the agent operation that replaces one
    alias in it (cmd/chasquid-agent/main.go). */
module AliasFile {
  import opened Text

  // ---------- Lines ----------

  /** A line as the agent keeps it: not blank, trimmed, on one line. */
  predicate IsLine(l: string) {
    l != "" && Trimmed(l) && '\n' !in l
  }

  predicate AllLines(ls: seq<string>) {
    forall l :: l in ls ==> IsLine(l)
  }

  /** The non-blank pieces, trimmed. */
  function Clean(pieces: seq<string>): seq<string> {
    if pieces == [] then []
    else
      var t := Trim(pieces[0]);
      (if t == "" then [] else [t]) + Clean(pieces[1..])
  }

  /** The lines the agent sees when it reads `text`. */
  function Lines(text: string): seq<string> {
    Clean(Split(text, '\n'))
  }

  /** The text the agent writes for `ls`. */
  function Render(ls: seq<string>): string {
    Join(ls, "\n") + "\n"
  }

  lemma {:induction false} CleanGivesLines(pieces: seq<string>)
    requires forall p :: p in pieces ==> '\n' !in p
    ensures AllLines(Clean(pieces))
  {
    if pieces != [] {
      assert pieces[0] in pieces;
      TrimChars(pieces[0], '\n');
      CleanGivesLines(pieces[1..]);
    }
  }

  /** Whatever the file holds, what the agent keeps of it are lines. */
  lemma LinesAreLines(text: string)
    ensures AllLines(Lines(text))
  {
    SplitPieces(text, '\n');
    CleanGivesLines(Split(text, '\n'));
  }

  lemma {:induction false} CleanConcat(a: seq<string>, b: seq<string>)
    ensures Clean(a + b) == Clean(a) + Clean(b)
  {
    hide Trim;
    if a == [] {
      assert a + b == b;
    } else {
      assert (a + b)[1..] == a[1..] + b;
      CleanConcat(a[1..], b);
    }
  }

  lemma {:induction false} CleanLines(ls: seq<string>)
    requires AllLines(ls)
    ensures Clean(ls) == ls
  {
    if ls != [] {
      assert ls[0] in ls;
      CleanLines(ls[1..]);
      assert ls == [ls[0]] + ls[1..];
    }
  }

  /** What the agent writes it reads back unchanged. */
  lemma LinesRender(ls: seq<string>)
    requires AllLines(ls)
    ensures Lines(Render(ls)) == ls
  {
    SplitConcat(Join(ls, "\n"), '\n', "");
    assert Render(ls) == Join(ls, "\n") + ['\n'] + "";
    CleanConcat(Split(Join(ls, "\n"), '\n'), [""]);
    assert Clean([""]) == [];
    if ls != [] {
      SplitJoin(ls, '\n');
      CleanLines(ls);
    } else {
      assert Clean(Split("", '\n')) == [];
    }
  }

  /** Every line ends in a newline, the last one too; without lines there is one newline. */
  lemma RenderIs(ls: seq<string>, last: string)
    ensures Render([]) == "\n" && Render([last]) == last + "\n"
    ensures ls != [] ==> Render(ls + [last]) == Render(ls) + last + "\n"
  {
    if ls != [] {
      JoinAppend(ls, last, "\n");
    }
  }

  // ---------- Keys ----------

  /** The case-folded key of a line, or none when the line has no colon. */
  function KeyOf(line: string): Option<string> {
    match Cut(line, ':')
    case None => None
    case Some(p) => Some(Lower(Trim(p.0)))
  }

  predicate Owned(line: string, keys: set<string>) {
    KeyOf(line).Some? && KeyOf(line).value in keys
  }

  /** The lines whose key is not in `keys`, in order. */
  function Drop(ls: seq<string>, keys: set<string>): seq<string> {
    if ls == [] then []
    else (if Owned(ls[0], keys) then [] else [ls[0]]) + Drop(ls[1..], keys)
  }

  lemma {:induction false} DropMembers(ls: seq<string>, keys: set<string>)
    ensures forall l :: l in Drop(ls, keys) <==> l in ls && !Owned(l, keys)
  {
    if ls != [] {
      DropMembers(ls[1..], keys);
      assert ls == [ls[0]] + ls[1..];
    }
  }

  lemma {:induction false} DropConcat(a: seq<string>, b: seq<string>, keys: set<string>)
    ensures Drop(a + b, keys) == Drop(a, keys) + Drop(b, keys)
  {
    if a == [] {
      assert a + b == b;
    } else {
      assert (a + b)[1..] == a[1..] + b;
      DropConcat(a[1..], b, keys);
    }
  }

  lemma {:induction false} DropTwice(ls: seq<string>, k1: set<string>, k2: set<string>)
    ensures Drop(Drop(ls, k1), k2) == Drop(ls, k1 + k2)
  {
    if ls != [] {
      DropTwice(ls[1..], k1, k2);
      DropConcat(if Owned(ls[0], k1) then [] else [ls[0]], Drop(ls[1..], k1), k2);
    }
  }

  lemma {:induction false} DropNone(ls: seq<string>, keys: set<string>)
    requires forall l :: l in ls ==> !Owned(l, keys)
    ensures Drop(ls, keys) == ls
  {
    if ls != [] {
      assert ls[0] in ls;
      DropNone(ls[1..], keys);
      assert ls == [ls[0]] + ls[1..];
    }
  }

  lemma {:induction false} DropAll(ls: seq<string>, keys: set<string>)
    requires forall l :: l in ls ==> Owned(l, keys)
    ensures Drop(ls, keys) == []
  {
    if ls != [] {
      assert ls[0] in ls;
      DropAll(ls[1..], keys);
    }
  }

  // ---------- Replacing one alias ----------

  /** One request to set an alias. */
  datatype Op = Op(local: string, dests: seq<string>)

  /** A local part the agent finds again after writing it: what address building
      yields for a trimmed local part. */
  predicate GoodLocal(local: string) {
    local != "" && Trimmed(local) && ':' !in local && '\n' !in local
  }

  /** A destination that survives writing and reading: an address. */
  predicate GoodDest(d: string) {
    d != "" && Trimmed(d) && ',' !in d && '\n' !in d
  }

  predicate GoodDests(ds: seq<string>) {
    forall d :: d in ds ==> GoodDest(d)
  }

  predicate GoodOp(op: Op) {
    GoodLocal(op.local) && GoodDests(op.dests)
  }

  predicate GoodOps(ops: seq<Op>) {
    forall op :: op in ops ==> GoodOp(op)
  }

  function AliasLine(local: string, dests: seq<string>): string {
    local + ": " + Join(dests, ", ")
  }

  /** The lines an operation adds: none when there is no destination. */
  function Added(op: Op): seq<string> {
    if op.dests == [] then [] else [AliasLine(op.local, op.dests)]
  }

  function SetLines(ls: seq<string>, op: Op): seq<string> {
    Drop(ls, {Lower(op.local)}) + Added(op)
  }

  /** The alias file after `op`, as a function of the file before. */
  function SetAlias(text: string, op: Op): string {
    Render(SetLines(Lines(text), op))
  }

  /** The file on disk is absent or holds text; an unreadable file is read as empty. */
  function ReadBack(file: Option<string>, readable: bool): string {
    if file.Some? && readable then file.value else ""
  }

  lemma KeepStep(pieces: seq<string>, i: nat, keys: set<string>)
    requires i < |pieces|
    ensures Drop(Clean(pieces[..i + 1]), keys)
         == Drop(Clean(pieces[..i]), keys)
            + if Trim(pieces[i]) == "" || Owned(Trim(pieces[i]), keys) then [] else [Trim(pieces[i])]
  {
    assert pieces[..i + 1] == pieces[..i] + [pieces[i]];
    CleanConcat(pieces[..i], [pieces[i]]);
    DropConcat(Clean(pieces[..i]), Clean([pieces[i]]), keys);
  }

  /** The lines of the file that stay: not blank and not under the alias's key. */
  method KeptLines(text: string, local: string) returns (lines: seq<string>)
    ensures lines == Drop(Lines(text), {Lower(local)})
  {
    var pieces := Split(text, '\n');
    lines := [];
    for i := 0 to |pieces|
      invariant lines == Drop(Clean(pieces[..i]), {Lower(local)})
    {
      var trimmed := Trim(pieces[i]);
      KeepStep(pieces, i, {Lower(local)});
      if trimmed == "" {
        continue;
      }
      var cut := Cut(trimmed, ':');
      if cut.Some? && Lower(Trim(cut.value.0)) == Lower(local) {
        continue; // replaced below
      }
      lines := lines + [trimmed];
    }
    assert pieces[..|pieces|] == pieces;
  }

  lemma NoLines()
    ensures Lines("") == []
  {
    assert Split("", '\n') == [""];
  }

  /** The agent's alias operation: filter the lines read, append the new one, and
      return the text that overwrites the file. */
  method SetAliasText(file: Option<string>, readable: bool, op: Op) returns (text: string)
    ensures text == SetAlias(ReadBack(file, readable), op)
  {
    var lines: seq<string> := [];
    if file.Some? && readable {
      lines := KeptLines(file.value, op.local);
    } else {
      NoLines();
    }
    if |op.dests| != 0 {
      lines := lines + [AliasLine(op.local, op.dests)];
    }
    assert lines == SetLines(Lines(ReadBack(file, readable)), op);
    text := Join(lines, "\n") + "\n";
  }

  // ---------- The line an operation writes ----------

  lemma {:induction false} JoinEnds(ds: seq<string>)
    requires ds != [] && GoodDests(ds)
    ensures Join(ds, ", ") != "" && Trimmed(Join(ds, ", ")) && '\n' !in Join(ds, ", ")
  {
    assert ds[0] in ds;
    if |ds| > 1 {
      JoinEnds(ds[1..]);
    }
  }

  /** The line written is a line, and carries exactly the operation's key. */
  lemma AliasLineKey(local: string, dests: seq<string>)
    requires GoodLocal(local) && GoodDests(dests) && dests != []
    ensures IsLine(AliasLine(local, dests))
    ensures KeyOf(AliasLine(local, dests)) == Some(Lower(local))
    ensures Cut(AliasLine(local, dests), ':') == Some((local, " " + Join(dests, ", ")))
  {
    JoinEnds(dests);
    var v := Join(dests, ", ");
    CutConcat(local, ':', " " + v);
    assert AliasLine(local, dests) == local + [':'] + (" " + v);
  }

  lemma AddedKey(op: Op)
    requires GoodOp(op)
    ensures AllLines(Added(op))
    ensures forall l :: l in Added(op) ==> KeyOf(l) == Some(Lower(op.local))
  {
    if op.dests != [] {
      AliasLineKey(op.local, op.dests);
    }
  }

  lemma SetLinesAreLines(ls: seq<string>, op: Op)
    requires AllLines(ls) && GoodOp(op)
    ensures AllLines(SetLines(ls, op))
    ensures Lines(Render(SetLines(ls, op))) == SetLines(ls, op)
  {
    AddedKey(op);
    DropMembers(ls, {Lower(op.local)});
    LinesRender(SetLines(ls, op));
  }

  // ---------- The file as a case-insensitive map ----------

  function TrimAll(ps: seq<string>): seq<string> {
    seq(|ps|, i requires 0 <= i < |ps| => Trim(ps[i]))
  }

  /** The destinations on the right of a line's colon. */
  function DestsOf(value: string): seq<string> {
    TrimAll(Split(value, ','))
  }

  /** What one line records under `key`. */
  function Entry(line: string, key: string): seq<seq<string>> {
    if KeyOf(line) == Some(key) then [DestsOf(Cut(line, ':').value.1)] else []
  }

  /** Every destination list recorded under `key`, in file order. */
  function Entries(ls: seq<string>, key: string): seq<seq<string>> {
    if ls == [] then [] else Entry(ls[0], key) + Entries(ls[1..], key)
  }

  lemma {:induction false} EntriesConcat(a: seq<string>, b: seq<string>, key: string)
    ensures Entries(a + b, key) == Entries(a, key) + Entries(b, key)
  {
    if a == [] {
      assert a + b == b;
    } else {
      assert (a + b)[1..] == a[1..] + b;
      EntriesConcat(a[1..], b, key);
    }
  }

  lemma {:induction false} EntriesDrop(ls: seq<string>, keys: set<string>, key: string)
    ensures Entries(Drop(ls, keys), key) == if key in keys then [] else Entries(ls, key)
  {
    if ls != [] {
      var rest := Drop(ls[1..], keys);
      EntriesDrop(ls[1..], keys, key);
      if !Owned(ls[0], keys) {
        assert Drop(ls, keys) == [ls[0]] + rest;
        assert ([ls[0]] + rest)[1..] == rest;
        EntryElsewhere(ls[0], keys, key);
      } else {
        assert Drop(ls, keys) == rest;
        EntryElsewhere(ls[0], keys, key);
      }
    }
  }

  lemma EntryElsewhere(line: string, keys: set<string>, key: string)
    ensures Owned(line, keys) != (key in keys) ==> Entry(line, key) == []
  {
  }

  lemma TrimBlank(d: string)
    requires d != "" && Trimmed(d)
    ensures Trim(" " + d) == d
  {
    assert (" " + d)[1..] == d;
    assert TrimLeft(" " + d) == TrimLeft(d) == d;
  }

  lemma {:induction false} DestsSplit(ds: seq<string>)
    requires ds != [] && GoodDests(ds)
    ensures DestsOf(" " + Join(ds, ", ")) == ds
  {
    hide Split, Trim;
    var d := ds[0];
    assert d in ds;
    TrimBlank(d);
    assert Split(" " + d, ',') == [" " + d];
    if |ds| == 1 {
      assert Join(ds, ", ") == d;
      assert TrimAll([" " + d]) == [d];
    } else {
      var rest := Join(ds[1..], ", ");
      assert " " + Join(ds, ", ") == (" " + d) + [','] + (" " + rest);
      SplitConcat(" " + d, ',', " " + rest);
      DestsSplit(ds[1..]);
      TrimAllCons(" " + d, Split(" " + rest, ','));
      assert ds == [d] + ds[1..];
    }
  }

  lemma TrimAllCons(p: string, ps: seq<string>)
    ensures TrimAll([p] + ps) == [Trim(p)] + TrimAll(ps)
  {
  }

  lemma AddedEntries(op: Op, key: string)
    requires GoodOp(op)
    ensures Entries(Added(op), key) == if key == Lower(op.local) && op.dests != [] then [op.dests] else []
  {
    if op.dests != [] {
      AliasLineKey(op.local, op.dests);
      DestsSplit(op.dests);
    }
  }

  /** Setting an alias updates the file as a map: its own key then holds exactly the new
      destinations (nothing when there are none, however many duplicates there were), and
      every other key, and every line with another key, stays as it was. */
  lemma SetAliasIsMapUpdate(text: string, op: Op, key: string)
    requires GoodOp(op)
    ensures Entries(Lines(SetAlias(text, op)), key)
         == if key != Lower(op.local) then Entries(Lines(text), key)
            else if op.dests == [] then [] else [op.dests]
    ensures Drop(Lines(SetAlias(text, op)), {Lower(op.local)}) == Drop(Lines(text), {Lower(op.local)})
  {
    LinesAreLines(text);
    SetLinesAreLines(Lines(text), op);
    SetLinesEntries(Lines(text), op, key);
    SetLinesForeign(Lines(text), op);
  }

  /** The text before the line's first colon is, up to blanks around it and ASCII case, this
      local part. */
  ghost predicate Spells(line: string, local: string) {
    exists key, rest :: line == key + ":" + rest && ':' !in key && EqualFold(Trim(key), local)
  }

  lemma SpellsIff(line: string, local: string)
    ensures Spells(line, local) <==> KeyOf(line) == Some(Lower(local))
  {
    hide Lower, Trim, Cut, EqualFold;
    CutParts(line, ':');
    if Spells(line, local) {
      var key, rest :| line == key + ":" + rest && ':' !in key && EqualFold(Trim(key), local);
      CutConcat(key, ':', rest);
      LowerIff(Trim(key), local);
    }
    if KeyOf(line) == Some(Lower(local)) {
      var p := Cut(line, ':').value;
      assert line == p.0 + ":" + p.1;
      LowerIff(Trim(p.0), local);
    }
  }

  /** Setting an alias removes its line under every spelling of the local part and keeps
      every other line; the only line of that key left is the one written. */
  lemma SetAliasAnySpelling(text: string, op: Op, line: string)
    requires GoodOp(op)
    ensures Spells(line, op.local) ==>
      (line in Lines(SetAlias(text, op)) <==> op.dests != [] && line == op.local + ": " + Join(op.dests, ", "))
    ensures !Spells(line, op.local) ==> (line in Lines(SetAlias(text, op)) <==> line in Lines(text))
  {
    hide Lower, Spells;
    LinesAreLines(text);
    SetLinesAreLines(Lines(text), op);
    DropMembers(Lines(text), {Lower(op.local)});
    SpellsIff(line, op.local);
    AddedKey(op);
  }

  lemma SetLinesForeign(ls: seq<string>, op: Op)
    requires GoodOp(op)
    ensures Drop(SetLines(ls, op), {Lower(op.local)}) == Drop(ls, {Lower(op.local)})
  {
    var k := {Lower(op.local)};
    DropConcat(Drop(ls, k), Added(op), k);
    DropTwice(ls, k, k);
    assert k + k == k;
    AddedKey(op);
    DropAll(Added(op), k);
  }

  /** As maps, updates of different keys commute. */
  lemma SetAliasCommutes(text: string, a: Op, b: Op, key: string)
    requires GoodOp(a) && GoodOp(b) && Lower(a.local) != Lower(b.local)
    ensures Entries(Lines(SetAlias(SetAlias(text, a), b)), key)
         == Entries(Lines(SetAlias(SetAlias(text, b), a)), key)
  {
    SetAliasIsMapUpdate(text, a, key);
    SetAliasIsMapUpdate(text, b, key);
    SetAliasIsMapUpdate(SetAlias(text, a), b, key);
    SetAliasIsMapUpdate(SetAlias(text, b), a, key);
  }

  // ---------- A whole list of operations ----------

  function SetAll(text: string, ops: seq<Op>): string {
    if ops == [] then text
    else SetAlias(SetAll(text, ops[..|ops| - 1]), ops[|ops| - 1])
  }

  /** The same on lines already read. */
  function SetAllLines(ls: seq<string>, ops: seq<Op>): seq<string> {
    if ops == [] then ls
    else SetLines(SetAllLines(ls, ops[..|ops| - 1]), ops[|ops| - 1])
  }

  function Keys(ops: seq<Op>): set<string> {
    set op | op in ops :: Lower(op.local)
  }

  predicate DistinctKeys(ops: seq<Op>) {
    forall i, j :: 0 <= i < j < |ops| ==> Lower(ops[i].local) != Lower(ops[j].local)
  }

  /** The lines of all operations, in operation order. */
  function Managed(ops: seq<Op>): seq<string> {
    if ops == [] then []
    else Managed(ops[..|ops| - 1]) + Added(ops[|ops| - 1])
  }

  lemma KeysSplit(ops: seq<Op>)
    requires ops != []
    ensures ops[|ops| - 1] in ops
    ensures Keys(ops) == Keys(ops[..|ops| - 1]) + {Lower(ops[|ops| - 1].local)}
    ensures GoodOps(ops) ==> GoodOps(ops[..|ops| - 1])
    ensures DistinctKeys(ops) ==>
      DistinctKeys(ops[..|ops| - 1]) && Lower(ops[|ops| - 1].local) !in Keys(ops[..|ops| - 1])
  {
    assert ops == ops[..|ops| - 1] + [ops[|ops| - 1]];
  }

  lemma SetAllSnoc(text: string, ops: seq<Op>, op: Op)
    ensures SetAll(text, ops + [op]) == SetAlias(SetAll(text, ops), op)
    ensures Keys(ops + [op]) == Keys(ops) + {Lower(op.local)}
  {
    assert (ops + [op])[..|ops + [op]| - 1] == ops;
  }

  lemma {:induction false} SetAllReads(text: string, ops: seq<Op>)
    requires GoodOps(ops)
    ensures AllLines(SetAllLines(Lines(text), ops))
    ensures Lines(SetAll(text, ops)) == SetAllLines(Lines(text), ops)
    ensures ops != [] ==> SetAll(text, ops) == Render(SetAllLines(Lines(text), ops))
  {
    if ops == [] {
      LinesAreLines(text);
    } else {
      KeysSplit(ops);
      SetAllReads(text, ops[..|ops| - 1]);
      SetLinesAreLines(SetAllLines(Lines(text), ops[..|ops| - 1]), ops[|ops| - 1]);
    }
  }

  lemma {:induction false} ManagedKeys(ops: seq<Op>)
    requires GoodOps(ops)
    ensures forall l :: l in Managed(ops) ==> Owned(l, Keys(ops))
    ensures forall l :: l in Managed(ops) ==> KeyOf(l).Some? && KeyOf(l).value in Keys(ops)
  {
    if ops != [] {
      KeysSplit(ops);
      ManagedKeys(ops[..|ops| - 1]);
      AddedKey(ops[|ops| - 1]);
    }
  }

  /** The normal form, line by line: foreign lines in order, then one line per operation. */
  lemma {:induction false} NormalFormLines(ls: seq<string>, ops: seq<Op>)
    requires GoodOps(ops) && DistinctKeys(ops)
    ensures SetAllLines(ls, ops) == Drop(ls, Keys(ops)) + Managed(ops)
  {
    hide Drop, KeyOf, Lower, Added;
    if ops == [] {
      assert Keys(ops) == {};
      DropNone(ls, {});
    } else {
      var init, last := ops[..|ops| - 1], ops[|ops| - 1];
      var k := {Lower(last.local)};
      KeysSplit(ops);
      NormalFormLines(ls, init);
      DropConcat(Drop(ls, Keys(init)), Managed(init), k);
      DropTwice(ls, Keys(init), k);
      ManagedKeys(init);
      DropNone(Managed(init), k);
    }
  }

  /** One pass over distinct aliases turns any file into its foreign lines, untouched and
      in order, followed by the managed lines in alias order, byte for byte. */
  lemma NormalForm(text: string, ops: seq<Op>)
    requires GoodOps(ops) && DistinctKeys(ops) && ops != []
    ensures SetAll(text, ops) == Render(Drop(Lines(text), Keys(ops)) + Managed(ops))
  {
    SetAllReads(text, ops);
    NormalFormLines(Lines(text), ops);
  }

  /** A pass leaves the foreign lines as they were. */
  lemma ForeignAfterLines(ls: seq<string>, ops: seq<Op>)
    requires GoodOps(ops) && DistinctKeys(ops)
    ensures Drop(SetAllLines(ls, ops), Keys(ops)) == Drop(ls, Keys(ops))
  {
    var ks := Keys(ops);
    NormalFormLines(ls, ops);
    DropConcat(Drop(ls, ks), Managed(ops), ks);
    DropTwice(ls, ks, ks);
    assert ks + ks == ks;
    ManagedKeys(ops);
    DropAll(Managed(ops), ks);
  }

  lemma LastPassWinsLines(ls: seq<string>, first: seq<Op>, second: seq<Op>)
    requires GoodOps(first) && DistinctKeys(first)
    requires GoodOps(second) && DistinctKeys(second)
    requires Keys(first) == Keys(second)
    ensures SetAllLines(SetAllLines(ls, first), second) == SetAllLines(ls, second)
  {
    ForeignAfterLines(ls, first);
    NormalFormLines(ls, second);
    NormalFormLines(SetAllLines(ls, first), second);
  }

  /** Only the latest pass matters: whatever an earlier pass over the same aliases wrote,
      the later pass gives the text it would have given on the original file. */
  lemma LastPassWins(text: string, first: seq<Op>, second: seq<Op>)
    requires GoodOps(first) && DistinctKeys(first)
    requires GoodOps(second) && DistinctKeys(second)
    requires Keys(first) == Keys(second) && second != []
    ensures SetAll(SetAll(text, first), second) == SetAll(text, second)
  {
    SetAllReads(text, first);
    SetAllReads(text, second);
    SetAllReads(SetAll(text, first), second);
    LastPassWinsLines(Lines(text), first, second);
  }

  /** Running the same pass again returns exactly the same text, although each single
      operation moves its line to the end. */
  lemma SecondPassIsIdentity(text: string, ops: seq<Op>)
    requires GoodOps(ops) && DistinctKeys(ops)
    ensures SetAll(SetAll(text, ops), ops) == SetAll(text, ops)
  {
    if ops != [] {
      LastPassWins(text, ops, ops);
    }
  }

  lemma SetLinesEntries(ls: seq<string>, op: Op, key: string)
    requires GoodOp(op)
    ensures Entries(SetLines(ls, op), key)
         == if key != Lower(op.local) then Entries(ls, key)
            else if op.dests == [] then [] else [op.dests]
  {
    EntriesConcat(Drop(ls, {Lower(op.local)}), Added(op), key);
    EntriesDrop(ls, {Lower(op.local)}, key);
    AddedEntries(op, key);
  }

  lemma {:induction false} EntriesAfterLines(ls: seq<string>, ops: seq<Op>, i: nat)
    requires GoodOps(ops) && DistinctKeys(ops) && i < |ops|
    ensures Entries(SetAllLines(ls, ops), Lower(ops[i].local))
         == if ops[i].dests == [] then [] else [ops[i].dests]
  {
    var init, last := ops[..|ops| - 1], ops[|ops| - 1];
    KeysSplit(ops);
    SetLinesEntries(SetAllLines(ls, init), last, Lower(ops[i].local));
    if i < |ops| - 1 {
      EntriesAfterLines(ls, init, i);
      assert Lower(ops[i].local) != Lower(last.local);
    }
  }

  /** After a pass every alias of it is recorded once with its destinations, or not at
      all when it has none. */
  lemma EntriesAfterPass(text: string, ops: seq<Op>, i: nat)
    requires GoodOps(ops) && DistinctKeys(ops) && i < |ops|
    ensures Entries(Lines(SetAll(text, ops)), Lower(ops[i].local))
         == if ops[i].dests == [] then [] else [ops[i].dests]
  {
    SetAllReads(text, ops);
    EntriesAfterLines(Lines(text), ops, i);
  }

  // ---------- Where the operation falls short of its comment ----------

  /** Other lines survive exactly when the file could be read or held none: an unreadable
      file is treated as an empty one and overwritten. */
  lemma ForeignLinesKeptIff(file: string, readable: bool, op: Op)
    requires GoodOp(op)
    ensures (Drop(Lines(SetAlias(ReadBack(Some(file), readable), op)), {Lower(op.local)})
             == Drop(Lines(file), {Lower(op.local)}))
        <==> readable || Drop(Lines(file), {Lower(op.local)}) == []
  {
    var foreign := Drop(Lines(file), {Lower(op.local)});
    SetAliasIsMapUpdate(ReadBack(Some(file), readable), op, "");
    if !readable {
      NoLines();
      assert Drop(Lines(""), {Lower(op.local)}) == [];
    }
  }

  /** Setting an alias twice equals setting it once exactly when its local part is trimmed;
      a padded one is not recognised on re-reading, and its line is duplicated. */
  lemma RepeatIsIdempotentIff(text: string, op: Op)
    requires op.local != "" && ':' !in op.local && '\n' !in op.local
    requires op.dests != [] && GoodDests(op.dests)
    ensures SetAlias(SetAlias(text, op), op) == SetAlias(text, op) <==> Trimmed(op.local)
  {
    if Trimmed(op.local) {
      assert SetAll(text, [op]) == SetAlias(text, op) by {
        assert [op][..0] == [];
      }
      assert SetAll(SetAlias(text, op), [op]) == SetAlias(SetAlias(text, op), op) by {
        assert [op][..0] == [];
      }
      SecondPassIsIdentity(text, [op]);
    } else {
      PaddedLineDuplicated(text, op);
    }
  }

  lemma TrimTail(a: string, tail: string)
    requires tail != "" && !IsSpace(tail[0]) && !IsSpace(tail[|tail| - 1])
    ensures Trim(a + tail) == TrimLeft(a) + tail
  {
    hide TrimLeft;
    TrimLeftPrefix(a, tail);
    var t := TrimLeft(a) + tail;
    assert t[|t| - 1] == tail[|tail| - 1];
    KeepsEnd(t);
  }

  lemma KeepsEnd(t: string)
    requires t != "" && !IsSpace(t[|t| - 1])
    ensures TrimRight(t) == t
  {
  }

  lemma TrimAliasLine(local: string, v: string)
    requires v != "" && Trimmed(v)
    ensures Trim(local + ": " + v) == TrimLeft(local) + ": " + v
  {
    hide TrimLeft, TrimRight, Trim;
    var tail := ": " + v;
    assert tail[0] == ':' && tail[|tail| - 1] == v[|v| - 1];
    TrimTail(local, tail);
    assert local + ": " + v == local + tail;
    assert TrimLeft(local) + ": " + v == TrimLeft(local) + tail;
  }

  lemma TrimShrinks(s: string)
    requires !Trimmed(s)
    ensures |Trim(s)| < |s|
    ensures Trim(TrimLeft(s)) == Trim(s)
  {
    assert TrimLeft(TrimLeft(s)) == TrimLeft(s);
  }

  lemma {:induction false} TrimLeftPrefix(a: string, b: string)
    requires b != "" && !IsSpace(b[0])
    ensures TrimLeft(a + b) == TrimLeft(a) + b
  {
    if a == "" {
      assert a + b == b;
    } else if IsSpace(a[0]) {
      assert (a + b)[1..] == a[1..] + b;
      TrimLeftPrefix(a[1..], b);
    }
  }

  lemma PaddedLineDuplicated(text: string, op: Op)
    requires op.local != "" && ':' !in op.local && '\n' !in op.local && !Trimmed(op.local)
    requires op.dests != [] && GoodDests(op.dests)
    ensures |Lines(SetAlias(text, op))| == |SetLines(Lines(text), op)|
    ensures |Lines(SetAlias(SetAlias(text, op), op))| == |Lines(SetAlias(text, op))| + 1
  {
    JoinEnds(op.dests);
    var v, k := Join(op.dests, ", "), {Lower(op.local)};
    var kept, raw := Drop(Lines(text), k), AliasLine(op.local, op.dests);
    var seen := TrimLeft(op.local) + ": " + v;
    LinesAreLines(text);
    DropMembers(Lines(text), k);
    TrimAliasLine(op.local, v);
    TrimChars(raw, '\n');
    RereadRaw(kept, raw, seen);
    PaddedKey(op.local, v);
    DropNone(kept + [seen], k);
    RereadRaw(kept + [seen], raw, seen);
  }

  /** The line of a padded local part is read back under another key. */
  lemma PaddedKey(local: string, v: string)
    requires ':' !in local && !Trimmed(local)
    ensures KeyOf(TrimLeft(local) + ": " + v) != Some(Lower(local))
  {
    if ':' in TrimLeft(local) {
      TrimLeftChars(local, ':');
      assert false;
    }
    CutConcat(TrimLeft(local), ':', " " + v);
    assert TrimLeft(local) + ": " + v == TrimLeft(local) + [':'] + (" " + v);
    TrimShrinks(local);
  }

  /** Reading back lines followed by one raw line gives that line trimmed. */
  lemma RereadRaw(ls: seq<string>, raw: string, seen: string)
    requires AllLines(ls) && '\n' !in raw && Trim(raw) == seen != ""
    ensures Lines(Render(ls + [raw])) == ls + [seen]
  {
    SplitConcat(Join(ls + [raw], "\n"), '\n', "");
    assert Render(ls + [raw]) == Join(ls + [raw], "\n") + ['\n'] + "";
    SplitJoin(ls + [raw], '\n');
    CleanConcat(ls + [raw], [""]);
    CleanConcat(ls, [raw]);
    CleanLines(ls);
    assert Clean([""]) == [];
    assert Clean([raw]) == [seen];
  }
}
