/** Organization slugs (internal/domain/identity.go:75-96): the builder loop produces the
    text's words, the maximal runs of letters and digits, joined by single hyphens. */
module Slug {
  import opened Text
  import opened Names

  /** The maximal runs of lower-case letters and digits. */
  function Words(s: string): seq<string> {
    if s == "" then []
    else Extended(Words(s[..|s| - 1]), Open(s[..|s| - 1]), s[|s| - 1])
  }

  /** One more character: it continues the last word, starts a new one, or is dropped. */
  function Extended(ws: seq<string>, open: bool, c: char): seq<string> {
    if !Alphanumeric(c) then ws
    else if open && ws != [] then ws[..|ws| - 1] + [ws[|ws| - 1] + [c]]
    else ws + [[c]]
  }

  /** The text ends inside a word. */
  predicate Open(s: string) {
    s != "" && Alphanumeric(s[|s| - 1])
  }

  predicate IsWord(w: string) {
    w != "" && forall i :: 0 <= i < |w| ==> Alphanumeric(w[i])
  }

  predicate AllWords(ws: seq<string>) {
    forall i :: 0 <= i < |ws| ==> IsWord(ws[i])
  }

  function Slugified(s: string): string {
    var ws := Words(Lower(Trim(s)));
    if ws == [] then "org" else Join(ws, "-")
  }

  /** Hyphens removed from both ends. */
  function TrimDashes(s: string): string
    decreases |s|
  {
    if s != "" && s[0] == '-' then TrimDashes(s[1..])
    else if s != "" && s[|s| - 1] == '-' then TrimDashes(s[..|s| - 1])
    else s
  }

  lemma {:induction false} WordsAreWords(s: string)
    ensures AllWords(Words(s)) && (Open(s) ==> Words(s) != [])
  {
    if s != "" {
      WordsAreWords(s[..|s| - 1]);
    }
  }

  lemma {:induction false} JoinLast(ws: seq<string>, sep: string, c: char)
    requires ws != []
    ensures Join(ws[..|ws| - 1] + [ws[|ws| - 1] + [c]], sep) == Join(ws, sep) + [c]
  {
    var init, last := ws[..|ws| - 1], ws[|ws| - 1];
    assert ws == init + [last];
    if init == [] {
      assert init + [last + [c]] == [last + [c]];
    } else {
      JoinConcat(init, [last], sep);
      JoinConcat(init, [last + [c]], sep);
    }
  }

  lemma JoinMore(ws: seq<string>, w: string)
    ensures Join(ws + [w], "-") == if ws == [] then w else Join(ws, "-") + "-" + w
  {
    if ws == [] {
      assert ws + [w] == [w];
    } else {
      JoinConcat(ws, [w], "-");
    }
  }

  /** The builder after `s`: its words joined, and a hyphen when a word was closed. */
  function Built(s: string): string {
    var ws := Words(s);
    Join(ws, "-") + (if ws != [] && !Open(s) then "-" else "")
  }

  lemma BuiltStep(s: string, c: char)
    ensures Built(s + [c]) ==
      if Alphanumeric(c) then Built(s) + [c]
      else if Words(s) != [] && Open(s) then Built(s) + "-" else Built(s)
  {
    assert (s + [c])[..|s|] == s;
    WordsAreWords(s);
    var ws := Words(s);
    if Alphanumeric(c) {
      if Open(s) {
        JoinLast(ws, "-", c);
      } else {
        JoinMore(ws, [c]);
      }
    }
  }

  lemma WordsJoined(ws: seq<string>)
    requires AllWords(ws) && ws != []
    ensures var j := Join(ws, "-"); j != "" && Alphanumeric(j[0]) && Alphanumeric(j[|j| - 1])
  {
    JoinEnds(ws, "-");
    assert IsWord(ws[0]) && IsWord(ws[|ws| - 1]);
  }

  lemma TrimBuilt(s: string)
    ensures TrimDashes(Built(s)) == Join(Words(s), "-")
    ensures Built(s) == "" <==> Words(s) == []
  {
    WordsAreWords(s);
    var ws := Words(s);
    if ws != [] {
      WordsJoined(ws);
      assert (Join(ws, "-") + "-")[..|Join(ws, "-")|] == Join(ws, "-");
    }
  }

  method Slugify(raw: string) returns (out: string)
    ensures out == Slugified(raw)
  {
    hide Words, Built, TrimDashes;
    var s := Lower(Trim(raw));
    var b, lastDash := "", false;
    TrimBuilt("");
    NothingBuilt();
    for i := 0 to |s|
      invariant b == Built(s[..i])
      invariant lastDash <==> b != "" && !Open(s[..i])
    {
      assert s[..i + 1] == s[..i] + [s[i]];
      BuiltStep(s[..i], s[i]);
      TrimBuilt(s[..i]);
      TrimBuilt(s[..i + 1]);
      if Alphanumeric(s[i]) {
        b := b + [s[i]];
        lastDash := false;
      } else if !lastDash && |b| > 0 {
        b := b + "-";
        lastDash := true;
      }
    }
    assert s[..|s|] == s;
    TrimBuilt(s);
    out := TrimDashes(b);
    WordsAreWords(s);
    if Words(s) != [] {
      WordsJoined(Words(s));
    }
    if out == "" {
      return "org";
    }
  }

  lemma NothingBuilt()
    ensures Built("") == ""
  {
  }

  // ---------- Shape ----------

  /** Words joined by single hyphens, at least one. */
  predicate IsSlug(x: string) {
    AllWords(Split(x, '-'))
  }

  lemma WordHasNoDash(ws: seq<string>)
    requires AllWords(ws)
    ensures forall w :: w in ws ==> '-' !in w
  {
  }

  lemma OrgIsSlug()
    ensures Split("org", '-') == ["org"] && AllWords(["org"])
  {
    assert '-' !in "org";
  }

  /** Every slug is non-empty and is made of runs of letters and digits joined by single
      hyphens. */
  lemma SlugShape(s: string)
    ensures Slugified(s) != "" && IsSlug(Slugified(s))
  {
    var ws := Words(Lower(Trim(s)));
    WordsAreWords(Lower(Trim(s)));
    if ws == [] {
      OrgIsSlug();
    } else {
      WordHasNoDash(ws);
      SplitJoin(ws, '-');
      WordsJoined(ws);
    }
  }

  // ---------- Idempotence ----------

  lemma {:induction false} WordAlone(w: string)
    requires IsWord(w)
    ensures Words(w) == [w]
  {
    var init, c := w[..|w| - 1], w[|w| - 1];
    assert w == init + [c];
    if init != "" {
      assert IsWord(init);
      WordAlone(init);
    }
  }

  lemma ExtendedConcat(front: seq<string>, ws: seq<string>, open: bool, c: char)
    requires open ==> ws != []
    ensures Extended(front + ws, open, c) == front + Extended(ws, open, c)
  {
    if open {
      assert (front + ws)[..|front + ws| - 1] == front + ws[..|ws| - 1];
    }
  }

  lemma WordsSnoc(s: string, c: char)
    ensures Words(s + [c]) == Extended(Words(s), Open(s), c)
  {
    assert (s + [c])[..|s|] == s;
  }

  lemma {:induction false} WordsConcat(a: string, b: string)
    ensures Words(a + "-" + b) == Words(a) + Words(b)
  {
    hide Extended, Words;
    if b == "" {
      assert a + "-" + b == a + ['-'];
      WordsSnoc(a, '-');
      NoMore(Words(a), Open(a));
    } else {
      var init, c := b[..|b| - 1], b[|b| - 1];
      assert b == init + [c] && a + "-" + b == a + "-" + init + [c];
      WordsConcat(a, init);
      WordsSnoc(init, c);
      WordsSnoc(a + "-" + init, c);
      WordsAreWords(init);
      ExtendedConcat(Words(a), Words(init), Open(init), c);
    }
  }

  lemma NoMore(ws: seq<string>, open: bool)
    ensures Extended(ws, open, '-') == ws && Words("") == []
  {
  }

  lemma {:induction false} WordsOfJoin(ws: seq<string>)
    requires AllWords(ws) && ws != []
    ensures Words(Join(ws, "-")) == ws
  {
    WordAlone(ws[0]);
    if |ws| > 1 {
      WordsOfJoin(ws[1..]);
      WordsConcat(ws[0], Join(ws[1..], "-"));
      assert ws == [ws[0]] + ws[1..];
    }
  }

  lemma SlugIsPlain(x: string)
    requires IsSlug(x)
    ensures Lower(Trim(x)) == x
  {
    var ws := Split(x, '-');
    JoinSplit(x, '-');
    WordsJoined(ws);
    forall c | c in x
      ensures NameChar(c)
    {
      JoinChars(ws, "-", c);
      if c != '-' {
        var w :| w in ws && c in w;
        assert IsWord(w);
      }
    }
    NameCharsFold(x);
  }

  /** The texts that slugify returns unchanged are exactly the slugs. */
  lemma SlugFixedPointIff(x: string)
    ensures Slugified(x) == x <==> IsSlug(x)
  {
    if IsSlug(x) {
      SlugIsPlain(x);
      JoinSplit(x, '-');
      WordsOfJoin(Split(x, '-'));
    }
    if Slugified(x) == x {
      SlugShape(x);
    }
  }

  lemma SlugifyIdempotent(s: string)
    ensures Slugified(Slugified(s)) == Slugified(s)
  {
    SlugShape(s);
    SlugFixedPointIff(Slugified(s));
  }

  // ---------- What a slug keeps of the text ----------

  /** A letter in lower case, a digit as it is, and a hyphen for anything else. */
  function Dashed(c: char): char {
    if 'a' <= c <= 'z' || '0' <= c <= '9' then c
    else if 'A' <= c <= 'Z' then (c as int - 'A' as int + 'a' as int) as char
    else '-'
  }

  function DashedText(s: string): string {
    seq(|s|, i requires 0 <= i < |s| => Dashed(s[i]))
  }

  predicate AllDashes(s: string) {
    forall c :: c in s ==> c == '-'
  }

  /** The text consists of these words in order, with dashes around them, and at least one
      between neighbours. */
  ghost predicate Gapped(t: string, ws: seq<string>)
    decreases |ws|
  {
    if ws == [] then AllDashes(t)
    else exists rest, gap :: EndsWith(t, rest, ws, gap) && Gapped(rest, ws[..|ws| - 1])
  }

  /** The last word of the text, and what is before and behind it. */
  predicate EndsWith(t: string, rest: string, ws: seq<string>, gap: string)
    requires ws != []
  {
    t == rest + ws[|ws| - 1] + gap && AllDashes(gap) && (rest == "" || rest[|rest| - 1] == '-')
  }

  lemma GappedMore(t: string, ws: seq<string>)
    requires Gapped(t, ws)
    ensures Gapped(t + "-", ws)
  {
    if ws != [] {
      var rest, gap :| EndsWith(t, rest, ws, gap) && Gapped(rest, ws[..|ws| - 1]);
      assert t + "-" == rest + ws[|ws| - 1] + (gap + "-");
      assert EndsWith(t + "-", rest, ws, gap + "-");
    }
  }

  lemma GappedWord(t: string, ws: seq<string>, c: char)
    requires Gapped(t, ws) && (t == "" || t[|t| - 1] == '-')
    ensures Gapped(t + [c], ws + [[c]])
  {
    assert t + [c] == t + [c] + "" && AllDashes("");
    assert EndsWith(t + [c], t, ws + [[c]], "");
    assert (ws + [[c]])[..|ws|] == ws;
  }

  lemma GappedLetter(t: string, ws: seq<string>, c: char)
    requires Gapped(t, ws) && ws != [] && t != "" && t[|t| - 1] != '-'
    ensures Gapped(t + [c], ws[..|ws| - 1] + [ws[|ws| - 1] + [c]])
  {
    var n := |ws| - 1;
    var rest, gap :| EndsWith(t, rest, ws, gap) && Gapped(rest, ws[..n]);
    if gap != "" {
      EndsInDash(t, rest, ws, gap);
      assert false;
    }
    LetterAtEnd(t, ws, c, rest);
  }

  lemma EndsInDash(t: string, rest: string, ws: seq<string>, gap: string)
    requires ws != [] && EndsWith(t, rest, ws, gap) && gap != ""
    ensures t != "" && t[|t| - 1] == '-'
  {
    assert gap[|gap| - 1] in gap;
  }

  lemma LetterAtEnd(t: string, ws: seq<string>, c: char, rest: string)
    requires ws != [] && EndsWith(t, rest, ws, "") && Gapped(rest, ws[..|ws| - 1])
    ensures Gapped(t + [c], ws[..|ws| - 1] + [ws[|ws| - 1] + [c]])
  {
    var n := |ws| - 1;
    var more := ws[..n] + [ws[n] + [c]];
    assert more[..n] == ws[..n];
    assert t + [c] == rest + (ws[n] + [c]) + "";
    assert EndsWith(t + [c], rest, more, "");
  }

  /** The words are those of the dashed text. */
  lemma {:induction false} WordsAreGapped(s: string)
    requires forall c :: c in s ==> !('A' <= c <= 'Z')
    ensures Gapped(DashedText(s), Words(s))
    ensures s != "" ==> (Open(s) <==> DashedText(s)[|s| - 1] != '-')
  {
    if s != "" {
      var init, c := s[..|s| - 1], s[|s| - 1];
      assert forall x :: x in init ==> x in s;
      assert c in s;
      WordsAreGapped(init);
      WordsAreWords(init);
      var t := DashedText(init);
      assert DashedText(s) == t + [Dashed(c)];
      if !Alphanumeric(c) {
        GappedMore(t, Words(init));
      } else if Open(init) {
        GappedLetter(t, Words(init), c);
      } else {
        GappedWord(t, Words(init), c);
      }
    }
  }

  lemma {:induction false} GappedFront(t: string, ws: seq<string>)
    requires Gapped(t, ws)
    ensures Gapped("-" + t, ws)
    decreases |ws|
  {
    if ws != [] {
      var n := |ws| - 1;
      var rest, gap :| EndsWith(t, rest, ws, gap) && Gapped(rest, ws[..n]);
      GappedFront(rest, ws[..n]);
      assert "-" + t == ("-" + rest) + ws[n] + gap;
      assert EndsWith("-" + t, "-" + rest, ws, gap);
    }
  }

  lemma {:induction false} GappedPadded(pre: string, t: string, post: string, ws: seq<string>)
    requires Gapped(t, ws) && AllDashes(pre) && AllDashes(post)
    ensures Gapped(pre + t + post, ws)
    decreases |pre| + |post|
  {
    hide Gapped;
    if pre != "" {
      assert pre[0] in pre && forall c :: c in pre[1..] ==> c in pre;
      GappedPadded(pre[1..], t, post, ws);
      GappedFront(pre[1..] + t + post, ws);
      assert pre + t + post == "-" + (pre[1..] + t + post);
    } else if post != "" {
      var n := |post| - 1;
      assert post[n] in post && forall c :: c in post[..n] ==> c in post;
      GappedPadded("", t, post[..n], ws);
      GappedMore("" + t + post[..n], ws);
      assert "" + t + post == "" + t + post[..n] + "-";
    } else {
      assert pre + t + post == t;
    }
  }

  lemma DashedParts(s: string, pre: string, t: string, post: string)
    requires s == pre + t + post && forall c :: c in pre + post ==> Blank(c)
    ensures DashedText(s) == DashedText(pre) + DashedText(Lower(t)) + DashedText(post)
    ensures AllDashes(DashedText(pre)) && AllDashes(DashedText(post))
  {
    LowerIs(t);
    assert forall i :: 0 <= i < |t| ==> Dashed(Lower(t)[i]) == Dashed(t[i]);
    forall i | 0 <= i < |pre|
      ensures Dashed(pre[i]) == '-'
    {
      assert pre[i] in pre + post;
    }
    forall i | 0 <= i < |post|
      ensures Dashed(post[i]) == '-'
    {
      assert post[i] in pre + post;
    }
  }

  /** A slug is the text's runs of ASCII letters and digits, in lower case, in order, every one
      of them, joined by single hyphens; `org` when there is none. */
  lemma SlugKeepsRuns(s: string) returns (runs: seq<string>)
    ensures AllWords(runs) && Gapped(DashedText(s), runs)
    ensures Slugified(s) == if runs == [] then "org" else Join(runs, "-")
  {
    hide Words, Gapped, DashedText;
    var pre, post := TrimIs(s);
    var t := Lower(Trim(s));
    LowerIs(Trim(s));
    runs := Words(t);
    WordsAreWords(t);
    WordsAreGapped(t);
    DashedParts(s, pre, Trim(s), post);
    GappedPadded(DashedText(pre), DashedText(t), DashedText(post), runs);
  }
}
