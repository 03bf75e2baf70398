/** Canonical names: domains, containment of host names, and mail addresses
    (internal/domain/domains.go:49-118, internal/domain/mail.go:44-83). Conversion to ASCII is
    a parameter, any function of the name; lengths count characters, bytes for ASCII. */
module Names {
  import opened Text
  import AliasFile

  // ---------- Normalizing a domain ----------

  datatype NameError =
    | Required | TooLong | NotIdna | EmptyLabel | LongLabel | EdgeHyphen | BadCharacter

  datatype Name = Ok(name: string) | Bad(error: NameError)

  type ToAscii = string -> Option<string>

  function TrimDot(s: string): string {
    if s != "" && s[|s| - 1] == '.' then s[..|s| - 1] else s
  }

  predicate Alphanumeric(c: char) {
    'a' <= c <= 'z' || '0' <= c <= '9'
  }

  /** What is wrong with the label from its `i`-th character on. */
  function CharError(piece: string, i: nat): Option<NameError>
    decreases |piece| - i
  {
    if i >= |piece| then None
    else if piece[i] == '-' then if i == 0 || i == |piece| - 1 then Some(EdgeHyphen) else CharError(piece, i + 1)
    else if !Alphanumeric(piece[i]) then Some(BadCharacter)
    else CharError(piece, i + 1)
  }

  function LabelError(piece: string): Option<NameError> {
    if piece == "" then Some(EmptyLabel) else if |piece| > 63 then Some(LongLabel) else CharError(piece, 0)
  }

  function LabelsError(labels: seq<string>): Option<NameError> {
    if labels == [] then None
    else if LabelError(labels[0]).Some? then LabelError(labels[0]) else LabelsError(labels[1..])
  }

  function Normalized(toAscii: ToAscii, s: string): Name {
    var t := TrimDot(Trim(s));
    if t == "" then Bad(Required)
    else if |t| > 253 then Bad(TooLong)
    else
      var ascii := toAscii(t);
      if ascii.None? then Bad(NotIdna)
      else
        var n := Lower(ascii.value);
        var e := LabelsError(Split(n, '.'));
        if e.Some? then Bad(e.value) else Ok(n)
  }

  method NormalizeDomain(toAscii: ToAscii, raw: string) returns (r: Name)
    ensures r == Normalized(toAscii, raw)
  {
    var s := Trim(raw);
    s := TrimDot(s);
    if s == "" {
      return Bad(Required);
    }
    if |s| > 253 {
      return Bad(TooLong);
    }
    var ascii := toAscii(s);
    if ascii.None? {
      return Bad(NotIdna);
    }
    var name := Lower(ascii.value);
    var labels := Split(name, '.');
    for k := 0 to |labels|
      invariant LabelsError(labels) == LabelsError(labels[k..])
    {
      var piece := labels[k];
      assert labels[k..][0] == piece && labels[k..][1..] == labels[k + 1..];
      if piece == "" {
        return Bad(EmptyLabel);
      }
      if |piece| > 63 {
        return Bad(LongLabel);
      }
      for i := 0 to |piece|
        invariant CharError(piece, 0) == CharError(piece, i)
      {
        if piece[i] == '-' {
          if i == 0 || i == |piece| - 1 {
            return Bad(EdgeHyphen);
          }
          continue;
        }
        if !Alphanumeric(piece[i]) {
          return Bad(BadCharacter);
        }
      }
    }
    return Ok(name);
  }

  // ---------- Canonical names ----------

  /** A label of lower-case letters, digits and inner hyphens, 1 to 63 characters long. */
  predicate LdhLabel(piece: string) {
    && 1 <= |piece| <= 63 && piece[0] != '-' && piece[|piece| - 1] != '-'
    && forall i :: 0 <= i < |piece| ==> piece[i] == '-' || Alphanumeric(piece[i])
  }

  predicate Canonical(name: string) {
    forall l :: l in Split(name, '.') ==> LdhLabel(l)
  }

  lemma {:induction false} CharErrorIff(piece: string, i: nat)
    ensures CharError(piece, i).None? <==>
      forall j :: i <= j < |piece| ==> Alphanumeric(piece[j]) || (piece[j] == '-' && j != 0 && j != |piece| - 1)
    decreases |piece| - i
  {
    if i < |piece| {
      CharErrorIff(piece, i + 1);
    }
  }

  lemma LabelErrorIff(piece: string)
    ensures LabelError(piece).None? <==> LdhLabel(piece)
  {
    CharErrorIff(piece, 0);
  }

  lemma {:induction false} LabelsErrorIff(labels: seq<string>)
    ensures LabelsError(labels).None? <==> forall l :: l in labels ==> LdhLabel(l)
  {
    hide LabelError, LdhLabel;
    if labels != [] {
      LabelErrorIff(labels[0]);
      LabelsErrorIff(labels[1..]);
    }
  }

  predicate NameChar(c: char) {
    Alphanumeric(c) || c == '-' || c == '.'
  }

  lemma {:induction false} JoinEnds(parts: seq<string>, sep: string)
    requires parts != [] && forall i :: 0 <= i < |parts| ==> parts[i] != ""
    ensures Join(parts, sep) != ""
    ensures Join(parts, sep)[0] == parts[0][0]
    ensures Join(parts, sep)[|Join(parts, sep)| - 1] == parts[|parts| - 1][|parts[|parts| - 1]| - 1]
  {
    if |parts| > 1 {
      var rest := parts[1..];
      JoinEnds(rest, sep);
      assert Join(parts, sep) == parts[0] + sep + Join(rest, sep);
    }
  }

  /** A canonical name begins and ends with a letter or digit, and holds no other
      characters than letters, digits, hyphens and dots. */
  lemma CanonicalChars(name: string)
    requires Canonical(name)
    ensures name != "" && Alphanumeric(name[0]) && Alphanumeric(name[|name| - 1])
    ensures forall c :: c in name ==> NameChar(c)
  {
    var labels := Split(name, '.');
    JoinSplit(name, '.');
    assert forall l :: l in labels ==> LdhLabel(l);
    forall i | 0 <= i < |labels|
      ensures LdhLabel(labels[i])
    {
      assert labels[i] in labels;
    }
    JoinEnds(labels, ".");
    forall c | c in name
      ensures NameChar(c)
    {
      JoinChars(labels, ".", c);
    }
  }

  lemma NameCharsFold(name: string)
    requires forall c :: c in name ==> NameChar(c)
    ensures Lower(name) == name
  {
    forall i | 0 <= i < |name|
      ensures LowerChar(name[i]) == name[i]
    {
      assert name[i] in name;
    }
  }

  /** A canonical name is in lower case, trimmed, and without a trailing dot. */
  lemma CanonicalIsPlain(name: string)
    requires Canonical(name)
    ensures name != "" && Trim(name) == name && Lower(name) == name && TrimDot(name) == name
  {
    hide Canonical;
    CanonicalChars(name);
    NameCharsFold(name);
  }

  /** Whatever the conversion to ASCII does, a name that is accepted is canonical. */
  lemma NormalizedIsCanonical(toAscii: ToAscii, s: string)
    requires Normalized(toAscii, s).Ok?
    ensures Canonical(Normalized(toAscii, s).name)
  {
    LabelsErrorIff(Split(Normalized(toAscii, s).name, '.'));
  }

  /** The names that normalization returns unchanged: canonical, of at most 253 characters,
      and left alone by the conversion to ASCII. */
  lemma FixedPointIff(toAscii: ToAscii, n: string)
    ensures Normalized(toAscii, n) == Ok(n) <==>
      Canonical(n) && |n| <= 253 && toAscii(n).Some? && Lower(toAscii(n).value) == n
  {
    hide LabelsError;
    LabelsErrorIff(Split(n, '.'));
    if Canonical(n) {
      CanonicalIsPlain(n);
    }
    if Normalized(toAscii, n) == Ok(n) {
      NormalizedIsCanonical(toAscii, n);
      CanonicalIsPlain(n);
    }
  }

  /** The conversion accepts its own results, up to case, and leaves them alone. */
  ghost predicate Stable(toAscii: ToAscii) {
    forall s :: toAscii(s).Some? ==>
      toAscii(Lower(toAscii(s).value)).Some? && Lower(toAscii(Lower(toAscii(s).value)).value) == Lower(toAscii(s).value)
  }

  /** Normalizing again changes nothing exactly when the name is at most 253 characters
      long: the length is checked only before the conversion, which can lengthen a name. */
  lemma NormalizeIdempotentIff(toAscii: ToAscii, s: string)
    requires Stable(toAscii) && Normalized(toAscii, s).Ok?
    ensures var n := Normalized(toAscii, s).name;
      (Normalized(toAscii, n) == Ok(n) <==> |n| <= 253) && (|n| > 253 ==> Normalized(toAscii, n) == Bad(TooLong))
  {
    var n := Normalized(toAscii, s).name;
    NormalizedIsCanonical(toAscii, s);
    CanonicalIsPlain(n);
    FixedPointIff(toAscii, n);
  }

  predicate IsAscii(s: string) {
    forall c :: c in s ==> c < 128 as char
  }

  /** On ASCII names the conversion folds case or reports an error. */
  ghost predicate FoldsAscii(toAscii: ToAscii) {
    forall s :: IsAscii(s) && toAscii(s).Some? ==> Lower(toAscii(s).value) == Lower(s)
  }

  lemma TrimmedAscii(s: string)
    requires IsAscii(s)
    ensures IsAscii(TrimDot(Trim(s)))
  {
    forall c | c in TrimDot(Trim(s))
      ensures c in s
    {
      TrimChars(s, c);
    }
  }

  /** For ASCII input, normalizing yields a canonical name of at most 253 characters, which
      is the input up to case, surrounding white space and a trailing dot, and normalizing
      is idempotent. */
  lemma NormalizeAscii(toAscii: ToAscii, s: string)
    requires Stable(toAscii) && FoldsAscii(toAscii) && IsAscii(s) && Normalized(toAscii, s).Ok?
    ensures var n := Normalized(toAscii, s).name;
      Canonical(n) && |n| <= 253 && n == Lower(TrimDot(Trim(s))) && Normalized(toAscii, n) == Ok(n)
  {
    hide IsAscii, Trim, LabelsError;
    NormalizedIsCanonical(toAscii, s);
    TrimmedAscii(s);
    NormalizeIdempotentIff(toAscii, s);
  }

  predicate AllBlank(s: string) {
    forall c :: c in s ==> Blank(c)
  }

  /** The text is `t` with blanks around it, and perhaps one dot after it. */
  predicate Surrounds(pre: string, t: string, post: string) {
    AllBlank(pre) && (AllBlank(post) || (post != "" && post[0] == '.' && AllBlank(post[1..])))
  }

  /** In it `t` is the name up to case, and the conversion takes it. */
  predicate Spells(toAscii: ToAscii, n: string, s: string, pre: string, t: string, post: string) {
    s == pre + t + post && Surrounds(pre, t, post) && EqualFold(t, n) && toAscii(t).Some?
  }

  lemma {:induction false} TrimLeftBlanks(pre: string, t: string)
    requires AllBlank(pre) && t != "" && !Blank(t[0])
    ensures TrimLeft(pre + t) == t
  {
    if pre == "" {
      assert pre + t == t;
    } else {
      assert pre[0] in pre && forall c :: c in pre[1..] ==> c in pre;
      assert (pre + t)[1..] == pre[1..] + t;
      TrimLeftBlanks(pre[1..], t);
    }
  }

  lemma {:induction false} TrimRightBlanks(t: string, post: string)
    requires AllBlank(post) && t != "" && !Blank(t[|t| - 1])
    ensures TrimRight(t + post) == t
  {
    if post == "" {
      assert t + post == t;
    } else {
      var n := |post| - 1;
      assert post[n] in post && forall c :: c in post[..n] ==> c in post;
      assert (t + post)[..|t + post| - 1] == t + post[..n];
      TrimRightBlanks(t, post[..n]);
    }
  }

  lemma TrimBlanks(pre: string, t: string, post: string)
    requires AllBlank(pre) && AllBlank(post) && t != "" && !Blank(t[0]) && !Blank(t[|t| - 1])
    ensures Trim(pre + t + post) == t
  {
    hide TrimLeft, TrimRight;
    assert pre + t + post == pre + (t + post);
    TrimLeftBlanks(pre, t + post);
    TrimRightBlanks(t, post);
  }

  /** Blanks around a text and a dot after it are taken off. */
  lemma PlainText(pre: string, t: string, post: string)
    requires Surrounds(pre, t, post) && t != ""
    requires !Blank(t[0]) && !Blank(t[|t| - 1]) && t[|t| - 1] != '.'
    ensures TrimDot(Trim(pre + t + post)) == t
  {
    hide Trim, AllBlank;
    if AllBlank(post) {
      TrimBlanks(pre, t, post);
    } else {
      assert pre + t + post == pre + (t + ".") + post[1..];
      TrimBlanks(pre, t + ".", post[1..]);
      assert (t + ".")[..|t|] == t;
    }
  }

  lemma FoldedEnds(t: string, n: string)
    requires EqualFold(t, n) && Canonical(n)
    ensures t != "" && !Blank(t[0]) && !Blank(t[|t| - 1]) && t[|t| - 1] != '.'
  {
    hide Canonical;
    CanonicalChars(n);
    assert SameLetter(t[0], n[0]) && SameLetter(t[|t| - 1], n[|n| - 1]);
  }

  /** Exactly these ASCII texts are accepted, and with this result: a canonical name of at most
      253 characters in any case, with blanks around it and perhaps one dot behind it, which the
      conversion does not refuse. */
  lemma NormalizedAsciiIff(toAscii: ToAscii, s: string, n: string)
    requires FoldsAscii(toAscii) && IsAscii(s)
    ensures Normalized(toAscii, s) == Ok(n) <==>
      Canonical(n) && |n| <= 253 && exists pre, t, post :: Spells(toAscii, n, s, pre, t, post)
  {
    hide Trim, Canonical, AllBlank, LabelsError, EqualFold, IsAscii;
    TrimmedAscii(s);
    var plain := TrimDot(Trim(s));
    if Normalized(toAscii, s) == Ok(n) {
      NormalizedIsCanonical(toAscii, s);
      LowerIs(plain);
      assert n == Lower(plain);
      var pre, post := TrimIs(s);
      AllBlankParts(pre, post);
      if plain == Trim(s) {
        assert Spells(toAscii, n, s, pre, plain, post);
      } else {
        assert s == pre + plain + ("." + post) && ("." + post)[1..] == post;
        assert Spells(toAscii, n, s, pre, plain, "." + post);
      }
    }
    if pre, t, post :| Canonical(n) && |n| <= 253 && Spells(toAscii, n, s, pre, t, post) {
      FoldedEnds(t, n);
      PlainText(pre, t, post);
      LowerIff(t, n);
      CanonicalIsPlain(n);
      SameLength(t, n);
      LabelsErrorIff(Split(n, '.'));
      CanonicalIs(n);
    }
  }

  lemma SameLength(a: string, b: string)
    requires EqualFold(a, b)
    ensures |a| == |b|
  {
  }

  lemma CanonicalIs(n: string)
    requires Canonical(n)
    ensures forall l :: l in Split(n, '.') ==> LdhLabel(l)
  {
  }

  lemma AllBlankParts(pre: string, post: string)
    requires forall c :: c in pre + post ==> Blank(c)
    ensures AllBlank(pre) && AllBlank(post)
  {
    assert forall c :: c in pre || c in post ==> c in pre + post;
  }

  // ---------- Which error ----------

  /** What is wrong with a label that is not one: it is empty, or too long, or its first bad
      character is a hyphen at an end or is none of letters, digits and hyphens. */
  ghost predicate ErrorOf(piece: string, e: NameError) {
    match e
    case EmptyLabel => |piece| == 0
    case LongLabel => |piece| >= 64
    case EdgeHyphen => 1 <= |piece| <= 63 && exists i: nat :: FirstBad(piece, i) && piece[i] == '-'
    case BadCharacter => 1 <= |piece| <= 63 && exists i: nat :: FirstBad(piece, i) && piece[i] != '-'
    case _ => false
  }

  predicate BadAt(piece: string, i: nat)
    requires i < |piece|
  {
    if piece[i] == '-' then i == 0 || i + 1 == |piece|
    else !('a' <= piece[i] <= 'z') && !('0' <= piece[i] <= '9')
  }

  predicate FirstBad(piece: string, i: nat) {
    i < |piece| && BadAt(piece, i) && forall j :: 0 <= j < i ==> !BadAt(piece, j)
  }

  lemma {:induction false} CharErrorIs(piece: string, i: nat) returns (k: nat)
    requires CharError(piece, i).Some? && forall j :: 0 <= j < i && j < |piece| ==> !BadAt(piece, j)
    ensures FirstBad(piece, k) && CharError(piece, i) == Some(if piece[k] == '-' then EdgeHyphen else BadCharacter)
    decreases |piece| - i
  {
    if BadAt(piece, i) {
      k := i;
    } else {
      k := CharErrorIs(piece, i + 1);
    }
  }

  lemma LabelErrorIs(piece: string)
    requires LabelError(piece).Some?
    ensures ErrorOf(piece, LabelError(piece).value)
  {
    if 1 <= |piece| <= 63 {
      var k := CharErrorIs(piece, 0);
    }
  }

  /** All labels before it are proper ones. */
  ghost predicate FirstBadLabel(labels: seq<string>, e: NameError, k: nat) {
    k < |labels| && ErrorOf(labels[k], e) && forall j :: 0 <= j < k ==> LdhLabel(labels[j])
  }

  /** The error reported is that of the first bad label. */
  lemma {:induction false} LabelsErrorIs(labels: seq<string>) returns (k: nat)
    requires LabelsError(labels).Some?
    ensures FirstBadLabel(labels, LabelsError(labels).value, k)
  {
    hide LabelError, LdhLabel, ErrorOf;
    LabelErrorIff(labels[0]);
    if LabelError(labels[0]).Some? {
      LabelErrorIs(labels[0]);
      k := 0;
    } else {
      var rest := LabelsErrorIs(labels[1..]);
      k := rest + 1;
    }
  }

  /** Why a text is refused, in the order of the checks. */
  ghost predicate Because(toAscii: ToAscii, t: string, e: NameError) {
    if t == "" then e == Required
    else if |t| >= 254 then e == TooLong
    else if toAscii(t).None? then e == NotIdna
    else exists k: nat :: FirstBadLabel(Split(Lower(toAscii(t).value), '.'), e, k)
  }

  lemma RefusedBecause(toAscii: ToAscii, s: string)
    requires Normalized(toAscii, s).Bad?
    ensures Because(toAscii, TrimDot(Trim(s)), Normalized(toAscii, s).error)
  {
    hide LabelsError, FirstBadLabel, Trim, TrimDot;
    var t := TrimDot(Trim(s));
    if t != "" && |t| <= 253 && toAscii(t).Some? {
      var k := LabelsErrorIs(Split(Lower(toAscii(t).value), '.'));
    }
  }

  // ---------- Containment ----------

  function Folded(s: string): string {
    TrimDot(Lower(Trim(s)))
  }

  function HostnameWithinDomain(hostname: string, domainName: string): bool {
    var h, d := Folded(hostname), Folded(domainName);
    h != "" && d != "" && (h == d || HasSuffix(h, "." + d))
  }

  predicate HasSuffix(s: string, end: string) {
    |end| <= |s| && s[|s| - |end|..] == end
  }

  /** The labels of `d` are the last labels of `h`. */
  predicate LabelSuffix(d: seq<string>, h: seq<string>) {
    |d| <= |h| && h[|h| - |d|..] == d
  }

  lemma {:induction false} JoinConcat(a: seq<string>, b: seq<string>, sep: string)
    requires a != [] && b != []
    ensures Join(a + b, sep) == Join(a, sep) + sep + Join(b, sep)
  {
    if |a| == 1 {
      assert (a + b)[1..] == b;
    } else {
      JoinConcat(a[1..], b, sep);
      assert (a + b)[1..] == a[1..] + b;
    }
  }

  /** A dotted suffix of the text is a proper suffix of the labels, and conversely. */
  lemma SuffixIff(h: string, d: string)
    ensures (h == d || HasSuffix(h, "." + d)) <==> LabelSuffix(Split(d, '.'), Split(h, '.'))
  {
    hide Split, Join;
    var lh, ld := Split(h, '.'), Split(d, '.');
    JoinSplit(h, '.');
    JoinSplit(d, '.');
    if HasSuffix(h, "." + d) {
      var x := h[..|h| - |d| - 1];
      assert h == x + ['.'] + d;
      SplitConcat(x, '.', d);
    }
    if LabelSuffix(ld, lh) && |ld| < |lh| {
      var p := lh[..|lh| - |ld|];
      assert lh == p + ld;
      JoinConcat(p, ld, ".");
      assert h == Join(p, ".") + ("." + d);
    }
    if LabelSuffix(ld, lh) && |ld| == |lh| {
      assert lh == ld;
    }
  }

  /** On all texts containment is suffix of the labels of the folded names, which must not be
      empty. */
  lemma WithinFoldedIff(h: string, d: string)
    ensures HostnameWithinDomain(h, d) <==>
      Folded(h) != "" && Folded(d) != "" && LabelSuffix(Split(Folded(d), '.'), Split(Folded(h), '.'))
  {
    hide Folded, HasSuffix, LabelSuffix;
    SuffixIff(Folded(h), Folded(d));
  }

  /** Folding takes off blanks and one dot, and lowers the case. */
  lemma FoldedIs(s: string)
    ensures forall c :: c in Folded(s) ==> !('A' <= c <= 'Z')
    ensures Trim(s) != "" && Trim(s)[|Trim(s)| - 1] == '.' ==> EqualFold(Trim(s), Folded(s) + ".")
    ensures Trim(s) == "" || Trim(s)[|Trim(s)| - 1] != '.' ==> EqualFold(Trim(s), Folded(s))
  {
    LowerIs(Trim(s));
  }

  /** On canonical names containment is exactly suffix of the label lists. */
  lemma WithinIff(h: string, d: string)
    requires Canonical(h) && Canonical(d)
    ensures HostnameWithinDomain(h, d) <==> LabelSuffix(Split(d, '.'), Split(h, '.'))
  {
    hide Canonical, HasSuffix, LabelSuffix;
    CanonicalIsPlain(h);
    CanonicalIsPlain(d);
    SuffixIff(h, d);
  }

  /** Containment is a partial order on canonical names. */
  lemma WithinPartialOrder(a: string, b: string, c: string)
    requires Canonical(a) && Canonical(b) && Canonical(c)
    ensures HostnameWithinDomain(a, a)
    ensures HostnameWithinDomain(a, b) && HostnameWithinDomain(b, a) ==> a == b
    ensures HostnameWithinDomain(a, b) && HostnameWithinDomain(b, c) ==> HostnameWithinDomain(a, c)
  {
    hide Canonical, HostnameWithinDomain, Split;
    WithinIff(a, a);
    WithinIff(a, b);
    WithinIff(b, a);
    WithinIff(b, c);
    WithinIff(a, c);
    JoinSplit(a, '.');
    JoinSplit(b, '.');
  }

  /** Two canonical names that contain a third are comparable: containment is a forest. */
  lemma WithinIsTreeOrder(h: string, a: string, b: string)
    requires Canonical(h) && Canonical(a) && Canonical(b)
    requires HostnameWithinDomain(h, a) && HostnameWithinDomain(h, b)
    ensures HostnameWithinDomain(a, b) || HostnameWithinDomain(b, a)
  {
    hide Canonical, HostnameWithinDomain, Split;
    WithinIff(h, a);
    WithinIff(h, b);
    WithinIff(a, b);
    WithinIff(b, a);
    var lh, la, lb := Split(h, '.'), Split(a, '.'), Split(b, '.');
    if |lb| <= |la| {
      assert la[|la| - |lb|..] == lb;
    } else {
      assert lb[|lb| - |la|..] == la;
    }
  }

  lemma LowerTrimDot(s: string)
    ensures Lower(TrimDot(s)) == TrimDot(Lower(s))
  {
  }

  /** For an ASCII host name the check on the raw text is the check on the stored one. */
  lemma RawCheckTransfers(toAscii: ToAscii, raw: string, d: string)
    requires Stable(toAscii) && FoldsAscii(toAscii) && IsAscii(raw) && Normalized(toAscii, raw).Ok?
    ensures HostnameWithinDomain(raw, d) <==> HostnameWithinDomain(Normalized(toAscii, raw).name, d)
  {
    hide Trim, Canonical, Normalized, HasSuffix;
    NormalizeAscii(toAscii, raw);
    LowerTrimDot(Trim(raw));
    CanonicalIsPlain(Normalized(toAscii, raw).name);
  }

  // ---------- Addresses ----------

  predicate LocalChar(c: char) {
    'a' <= c <= 'z' || 'A' <= c <= 'Z' || '0' <= c <= '9' || c == '.' || c == '_' || c == '-' || c == '+'
  }

  predicate NoDoubleDot(s: string) {
    forall i :: 0 <= i < |s| - 1 ==> !(s[i] == '.' && s[i + 1] == '.')
  }

  /** A dot-atom of the platform's characters. */
  predicate DotAtom(local: string) {
    && 1 <= |local| <= 64 && (forall c :: c in local ==> LocalChar(c))
    && local[0] != '.' && local[|local| - 1] != '.' && NoDoubleDot(local)
  }

  /** Letters, digits, underscores, hyphens and plus signs. */
  predicate AtomText(c: char) {
    || 'a' <= c <= 'z' || 'A' <= c <= 'Z' || '0' <= c <= '9' || c == '_' || c == '-' || c == '+'
  }

  predicate Atom(piece: string) {
    piece != "" && forall c :: c in piece ==> AtomText(c)
  }

  /** Of at most 64 characters, and between its dots non-empty runs of such characters. */
  lemma DotAtomIff(local: string)
    ensures DotAtom(local) <==> |local| <= 64 && forall p :: p in Split(local, '.') ==> Atom(p)
  {
    SplitAtoms(local);
    if forall p :: p in Split(local, '.') ==> Atom(p) {
      assert Split(local, '.')[0] in Split(local, '.');
    }
  }

  /** A dot is where two pieces meet. */
  predicate DotsInside(s: string) {
    s != "" && s[0] != '.' && s[|s| - 1] != '.' && NoDoubleDot(s)
  }

  lemma {:induction false} SplitAtoms(s: string)
    ensures (forall p :: p in Split(s, '.') ==> Atom(p)) <==> DotsInside(s) && forall c :: c in s ==> LocalChar(c)
    decreases |s|
  {
    CutParts(s, '.');
    match Cut(s, '.')
    case None =>
      assert Split(s, '.') == [s];
      assert s != "" ==> s[0] in s && s[|s| - 1] in s;
      assert s in Split(s, '.');
      forall i | 0 <= i < |s|
        ensures s[i] != '.'
      {
        assert s[i] in s;
      }
    case Some(p) =>
      var (a, b) := p;
      assert s == a + ['.'] + b;
      SplitConcat(a, '.', b);
      assert Split(a, '.') == [a];
      SplitAtoms(b);
      DotsInsideConcat(a, b);
      forall x | x in Split(s, '.')
        ensures x == a || x in Split(b, '.')
      {
      }
      assert a in Split(s, '.') && forall x :: x in Split(b, '.') ==> x in Split(s, '.');
      assert forall c :: c in s <==> c in a || c == '.' || c in b;
  }

  lemma DotsInsideConcat(a: string, b: string)
    requires '.' !in a
    ensures DotsInside(a + ['.'] + b) <==> a != "" && DotsInside(b)
  {
    var s := a + ['.'] + b;
    forall i | 0 <= i < |a|
      ensures a[i] != '.'
    {
      assert a[i] in a;
    }
    if DotsInside(s) {
      assert s[|a|] == '.' && s[|s| - 1] != '.';
      assert forall i :: 0 <= i < |b| ==> b[i] == s[|a| + 1 + i];
    }
    if a != "" && DotsInside(b) {
      assert s[|a|] == '.' && s[|a| + 1] == b[0];
    }
  }

  /** The validation trims a copy of the local part. */
  method ValidateLocalPart(raw: string) returns (ok: bool)
    ensures ok <==> DotAtom(Trim(raw))
  {
    var local := Trim(raw);
    if local == "" || |local| > 64 {
      return false;
    }
    for i := 0 to |local|
      invariant forall j :: 0 <= j < i ==> LocalChar(local[j])
    {
      if !LocalChar(local[i]) {
        assert local[i] in local;
        return false;
      }
    }
    return local[0] != '.' && local[|local| - 1] != '.' && NoDoubleDot(local);
  }

  /** Whether an address would split into a host and a port; a colon is needed. */
  type PortSplit = string -> bool

  function BuildAddress(toAscii: ToAscii, hasPort: PortSplit, local: string, fqdn: string): Option<string> {
    if !DotAtom(Trim(local)) then None
    else
      var n := Normalized(toAscii, fqdn);
      if n.Bad? then None
      else
        var addr := Lower(local) + "@" + n.name;
        if hasPort(addr) then None else Some(addr)
  }

  lemma {:induction false} TrimLeftKeeps(s: string, c: char)
    requires c in s && !IsSpace(c)
    ensures c in TrimLeft(s)
  {
    if s != "" && IsSpace(s[0]) {
      TrimLeftKeeps(s[1..], c);
    }
  }

  lemma {:induction false} TrimRightKeeps(s: string, c: char)
    requires c in s && !IsSpace(c)
    ensures c in TrimRight(s)
  {
    if s != "" && IsSpace(s[|s| - 1]) {
      TrimRightKeeps(s[..|s| - 1], c);
    }
  }

  /** The local part as built, padding included, holds local characters and white space. */
  lemma LocalChars(local: string, c: char)
    requires DotAtom(Trim(local)) && c in Lower(local)
    ensures LocalChar(c) || IsSpace(c)
  {
    var i :| 0 <= i < |local| && Lower(local)[i] == c;
    assert local[i] in local;
    if !IsSpace(local[i]) {
      TrimLeftKeeps(local, local[i]);
      TrimRightKeeps(TrimLeft(local), local[i]);
    }
  }

  lemma AddressChars(toAscii: ToAscii, local: string, fqdn: string, c: char)
    requires DotAtom(Trim(local)) && Normalized(toAscii, fqdn).Ok?
    requires c in Lower(local) + "@" + Normalized(toAscii, fqdn).name
    ensures c == '@' || LocalChar(c) || IsSpace(c)
  {
    hide Normalized, Canonical, DotAtom;
    NormalizedIsCanonical(toAscii, fqdn);
    CanonicalChars(Normalized(toAscii, fqdn).name);
    if c in Lower(local) {
      LocalChars(local, c);
    }
  }

  /** The port check never fires: an address is built exactly when both parts are valid. */
  lemma AddressIsBuiltIff(toAscii: ToAscii, hasPort: PortSplit, local: string, fqdn: string)
    requires forall a :: hasPort(a) ==> ':' in a
    ensures BuildAddress(toAscii, hasPort, local, fqdn).Some? <==> DotAtom(Trim(local)) && Normalized(toAscii, fqdn).Ok?
  {
    hide DotAtom, Normalized;
    if DotAtom(Trim(local)) && Normalized(toAscii, fqdn).Ok? {
      var addr := Lower(local) + "@" + Normalized(toAscii, fqdn).name;
      if hasPort(addr) {
        AddressChars(toAscii, local, fqdn, ':');
      }
    }
  }

  /** Cutting a built address at the at-sign recovers the two parts. */
  lemma AddressParts(toAscii: ToAscii, hasPort: PortSplit, local: string, fqdn: string)
    requires BuildAddress(toAscii, hasPort, local, fqdn).Some?
    ensures var addr := BuildAddress(toAscii, hasPort, local, fqdn).value;
      && Cut(addr, '@') == Some((Lower(local), Normalized(toAscii, fqdn).name))
      && Split(addr, '@') == [Lower(local), Normalized(toAscii, fqdn).name]
  {
    hide Normalized, Cut, Split, Canonical;
    var n := Normalized(toAscii, fqdn).name;
    NormalizedIsCanonical(toAscii, fqdn);
    CanonicalChars(n);
    if '@' in Lower(local) {
      LocalChars(local, '@');
    }
    assert '@' !in Lower(local) && '@' !in n;
    CutConcat(Lower(local), '@', n);
    SplitConcat(Lower(local), '@', n);
    assert Split(Lower(local), '@') == [Lower(local)] && Split(n, '@') == [n];
    assert Lower(local) + ['@'] + n == Lower(local) + "@" + n;
  }

  /** Addresses are equal exactly when the local parts are, up to case, and the normalized
      domains are. */
  lemma AddressInjective(toAscii: ToAscii, hasPort: PortSplit, l1: string, d1: string, l2: string, d2: string)
    requires BuildAddress(toAscii, hasPort, l1, d1).Some? && BuildAddress(toAscii, hasPort, l2, d2).Some?
    ensures BuildAddress(toAscii, hasPort, l1, d1) == BuildAddress(toAscii, hasPort, l2, d2) <==>
      Lower(l1) == Lower(l2) && Normalized(toAscii, d1) == Normalized(toAscii, d2)
  {
    hide Normalized, Cut, Split;
    AddressParts(toAscii, hasPort, l1, d1);
    AddressParts(toAscii, hasPort, l2, d2);
  }

  lemma LowerDotAtom(local: string)
    requires DotAtom(local)
    ensures DotAtom(Lower(local))
  {
    forall c | c in Lower(local)
      ensures LocalChar(c)
    {
      var i :| 0 <= i < |local| && Lower(local)[i] == c;
      assert local[i] in local;
    }
    forall i | 0 <= i < |local| - 1
      ensures !(Lower(local)[i] == '.' && Lower(local)[i + 1] == '.')
    {
      assert local[i] in local && local[i + 1] in local;
    }
    assert local[0] in local && local[|local| - 1] in local;
  }

  /** The local part recovered from an address is a valid one of at most 64 characters
      exactly when the one given carried no padding: validation trims only its own copy. */
  lemma LocalIsValidIff(local: string)
    requires DotAtom(Trim(local))
    ensures DotAtom(Lower(local)) <==> Trimmed(local)
  {
    if Trimmed(local) {
      LowerDotAtom(local);
    } else {
      assert Lower(local)[0] in Lower(local) && Lower(local)[|local| - 1] in Lower(local);
      assert IsSpace(Lower(local)[0]) || IsSpace(Lower(local)[|local| - 1]);
    }
  }

  /** What address building yields is what the alias file needs, exactly for unpadded local
      parts: its local part is found again, and the address survives as a destination. */
  lemma AddressSuitsAliasFile(toAscii: ToAscii, hasPort: PortSplit, local: string, fqdn: string)
    requires BuildAddress(toAscii, hasPort, local, fqdn).Some?
    ensures AliasFile.GoodLocal(Lower(local)) <==> Trimmed(local)
    ensures Trimmed(local) ==> AliasFile.GoodDest(BuildAddress(toAscii, hasPort, local, fqdn).value)
  {
    hide Normalized, Canonical;
    LowerTrimmed(local);
    if Trimmed(local) {
      var n, addr := Normalized(toAscii, fqdn).name, BuildAddress(toAscii, hasPort, local, fqdn).value;
      NormalizedIsCanonical(toAscii, fqdn);
      CanonicalChars(n);
      LowerDotAtom(local);
      assert forall c :: c in addr ==> c in Lower(local) || c == '@' || c in n;
      assert addr[0] == Lower(local)[0] && addr[|addr| - 1] == n[|n| - 1];
    }
  }
}
