/** Sender authorization: the policy file the agent prints and the post-data hook that greps
    it (cmd/chasquid-agent/main.go:207-226, 326-342), composed with the policy that mailbox
    provisioning installs (internal/provision/mail.go:73). */
module SenderPolicy {
  import opened Text
  import opened Names

  /** One allowed sender per line. */
  function PolicyText(allowed: seq<string>): string {
    if allowed == [] then "" else PolicyText(allowed[..|allowed| - 1]) + allowed[|allowed| - 1] + "\n"
  }

  /** The lines of a file: what precedes each newline, and a last line without one. */
  function FileLines(text: string): seq<string> {
    var pieces := Split(text, '\n');
    if pieces[|pieces| - 1] == "" then pieces[..|pieces| - 1] else pieces
  }

  /** Some line of the file is one of the lines of the pattern. */
  predicate Matches(pattern: string, text: string) {
    exists p :: p in Split(pattern, '\n') && p in FileLines(text)
  }

  /** Some line of the file is none of the lines of the pattern. */
  predicate MatchesInverted(pattern: string, text: string) {
    exists l :: l in FileLines(text) && l !in Split(pattern, '\n')
  }

  /** An argument that grep reads as options, since the script puts no `--` before it. */
  predicate IsOption(arg: string) {
    |arg| >= 2 && arg[0] == '-'
  }

  /** What a cluster of options asks for: a search for the pattern that follows `e`, perhaps
      inverted by a `v` before it, or something else. The options that the script gives anyway
      change nothing. */
  datatype Search = Search(pattern: string, inverted: bool) | Otherwise

  function ReadOptions(cluster: string, inverted: bool): Search {
    if cluster == "" then Otherwise
    else if cluster[0] == 'v' then ReadOptions(cluster[1..], true)
    else if cluster[0] in {'F', 'x', 'q'} then ReadOptions(cluster[1..], inverted)
    else if cluster[0] == 'e' && |cluster| > 1 then Search(cluster[1..], inverted)
    else Otherwise
  }

  /** The answers of grep to the remaining options (an error, a search of standard input, other
      ways of matching): any function of the argument and the file. */
  type OtherAnswers = (string, string) -> bool

  /** `grep -Fxq arg file`. */
  predicate Grep(other: OtherAnswers, arg: string, text: string) {
    if !IsOption(arg) then Matches(arg, text)
    else
      match ReadOptions(arg[1..], false)
      case Search(p, inverted) => if inverted then MatchesInverted(p, text) else Matches(p, text)
      case Otherwise => other(arg, text)
  }

  /** The shell's `##*@`: what follows the last at-sign, or everything when there is none. */
  function AfterLastAt(s: string): string {
    var pieces := Split(s, '@');
    pieces[|pieces| - 1]
  }

  /** The post-data hook: no authenticated user, nothing to check; no policy file, refused. */
  predicate HookAccepts(other: OtherAnswers, policies: map<string, string>, authAs: string, mailFrom: string) {
    authAs == "" ||
    (authAs in policies &&
      (Grep(other, mailFrom, policies[authAs]) ||
       (AfterLastAt(mailFrom) != "" && Grep(other, "@" + AfterLastAt(mailFrom), policies[authAs]))))
  }

  class PolicyDir {
    var policies: map<string, string>

    /** Writes the policy file of an address. */
    method EnsureSenderPolicy(address: string, allowed: seq<string>, written: bool) returns (ok: bool)
      modifies this
      ensures ok == (address != "" && written)
      ensures policies == if ok then old(policies)[address := PolicyText(allowed)] else old(policies)
    {
      if address == "" {
        return false;
      }
      var b := "";
      for i := 0 to |allowed|
        invariant b == PolicyText(allowed[..i])
        invariant policies == old(policies)
      {
        assert allowed[..i + 1][..i] == allowed[..i];
        b := b + allowed[i] + "\n";
      }
      assert allowed[..|allowed|] == allowed;
      if !written {
        return false;
      }
      policies := policies[address := b];
      return true;
    }
  }

  predicate OneLine(s: string) {
    '\n' !in s
  }

  predicate OneLineEach(ss: seq<string>) {
    forall i :: 0 <= i < |ss| ==> OneLine(ss[i])
  }

  lemma {:induction false} PolicyIsJoin(allowed: seq<string>)
    requires allowed != []
    ensures PolicyText(allowed) == Join(allowed, "\n") + "\n"
  {
    var init, last := allowed[..|allowed| - 1], allowed[|allowed| - 1];
    assert allowed == init + [last];
    if init == [] {
      assert allowed == [last];
    } else {
      PolicyIsJoin(init);
      JoinConcat(init, [last], "\n");
    }
  }

  /** The file read line by line is the list that was printed. */
  lemma PolicyLines(allowed: seq<string>)
    requires OneLineEach(allowed)
    ensures FileLines(PolicyText(allowed)) == allowed
  {
    if allowed != [] {
      PolicyIsJoin(allowed);
      SplitConcat(Join(allowed, "\n"), '\n', "");
      assert Join(allowed, "\n") + ['\n'] + "" == PolicyText(allowed);
      SplitJoin(allowed, '\n');
      assert Split("", '\n') == [""];
      assert (allowed + [""])[..|allowed|] == allowed;
    }
  }

  /** A last line without a newline counts, the empty rest after a newline does not. */
  lemma FileLinesIs(text: string, last: string)
    requires OneLine(last)
    ensures FileLines(text + "\n" + last) == Split(text, '\n') + if last == "" then [] else [last]
    ensures FileLines(last) == if last == "" then [] else [last]
  {
    SplitConcat(text, '\n', last);
    assert text + ['\n'] + last == text + "\n" + last;
    assert Split(last, '\n') == [last];
  }

  lemma MatchesIff(pattern: string, allowed: seq<string>)
    requires OneLine(pattern) && OneLineEach(allowed)
    ensures Matches(pattern, PolicyText(allowed)) <==> pattern in allowed
    ensures MatchesInverted(pattern, PolicyText(allowed)) <==> exists l :: l in allowed && l != pattern
  {
    PolicyLines(allowed);
    assert Split(pattern, '\n') == [pattern];
    assert pattern in Split(pattern, '\n');
  }

  lemma LastIsOneLine(s: string)
    requires OneLine(s)
    ensures OneLine(AfterLastAt(s))
  {
    SplitChars(s, '@', '\n');
    assert AfterLastAt(s) in Split(s, '@');
  }

  /** MAIL FROM, or an at-sign and its domain, is in the list. */
  predicate Member(allowed: seq<string>, mailFrom: string) {
    mailFrom in allowed || (AfterLastAt(mailFrom) != "" && "@" + AfterLastAt(mailFrom) in allowed)
  }

  /** The second search never starts with a hyphen. */
  lemma DomainSearchIff(other: OtherAnswers, allowed: seq<string>, mailFrom: string)
    requires OneLine(mailFrom) && OneLineEach(allowed)
    ensures Grep(other, "@" + AfterLastAt(mailFrom), PolicyText(allowed)) <==> "@" + AfterLastAt(mailFrom) in allowed
  {
    hide Matches, PolicyText, AfterLastAt;
    LastIsOneLine(mailFrom);
    MatchesIff("@" + AfterLastAt(mailFrom), allowed);
  }

  /** Printing and grepping compose to membership for a sender that is not read as options: it
      passes exactly when MAIL FROM, or an at-sign and its domain, is in the list written. */
  lemma HookIsMembership(other: OtherAnswers, policies: map<string, string>, authAs: string,
      allowed: seq<string>, mailFrom: string)
    requires authAs != "" && authAs in policies && policies[authAs] == PolicyText(allowed)
    requires OneLine(mailFrom) && OneLineEach(allowed) && !IsOption(mailFrom)
    ensures HookAccepts(other, policies, authAs, mailFrom) <==> Member(allowed, mailFrom)
  {
    hide Matches, PolicyText, AfterLastAt;
    MatchesIff(mailFrom, allowed);
    DomainSearchIff(other, allowed, mailFrom);
  }

  /** The hook's verdict on any sender, with what the options it is read as ask for. */
  predicate Verdict(other: OtherAnswers, allowed: seq<string>, mailFrom: string) {
    (AfterLastAt(mailFrom) != "" && "@" + AfterLastAt(mailFrom) in allowed) ||
    if !IsOption(mailFrom) then mailFrom in allowed
    else
      match ReadOptions(mailFrom[1..], false)
      case Search(p, inverted) => if inverted then exists l :: l in allowed && l != p else p in allowed
      case Otherwise => other(mailFrom, PolicyText(allowed))
  }

  lemma HookIsVerdict(other: OtherAnswers, policies: map<string, string>, authAs: string, allowed: seq<string>,
      mailFrom: string)
    requires authAs != "" && authAs in policies && policies[authAs] == PolicyText(allowed)
    requires OneLine(mailFrom) && OneLineEach(allowed)
    ensures HookAccepts(other, policies, authAs, mailFrom) <==> Verdict(other, allowed, mailFrom)
  {
    hide Matches, MatchesInverted, PolicyText, AfterLastAt;
    DomainSearchIff(other, allowed, mailFrom);
    if !IsOption(mailFrom) {
      MatchesIff(mailFrom, allowed);
    } else if ReadOptions(mailFrom[1..], false).Search? {
      var p := ReadOptions(mailFrom[1..], false).pattern;
      OptionPattern(mailFrom[1..], false);
      MatchesIff(p, allowed);
    }
  }

  /** The pattern is part of the argument, and shorter. */
  lemma {:induction false} OptionPattern(cluster: string, inverted: bool)
    requires ReadOptions(cluster, inverted).Search?
    ensures |ReadOptions(cluster, inverted).pattern| < |cluster|
    ensures forall c :: c in ReadOptions(cluster, inverted).pattern ==> c in cluster
  {
    if cluster[0] != 'e' {
      OptionPattern(cluster[1..], inverted || cluster[0] == 'v');
    }
  }

  /** For every list and every behaviour of grep on further options, verdict and membership agree. */
  ghost predicate AlwaysMembership(mailFrom: string) {
    forall other: OtherAnswers, allowed :: OneLineEach(allowed) ==>
      (Verdict(other, allowed, mailFrom) <==> Member(allowed, mailFrom))
  }

  /** The hook decides by membership, whatever the list, exactly for the senders that grep does
      not read as options: those without a hyphen in front, and a hyphen alone. */
  lemma MembershipIff(mailFrom: string)
    requires OneLine(mailFrom)
    ensures AlwaysMembership(mailFrom) <==> !(|mailFrom| >= 2 && mailFrom[0] == '-')
  {
    if IsOption(mailFrom) {
      var other, allowed := OptionCounterexample(mailFrom);
    }
  }

  lemma OptionCounterexample(mailFrom: string) returns (other: OtherAnswers, allowed: seq<string>)
    requires OneLine(mailFrom) && IsOption(mailFrom)
    ensures OneLineEach(allowed) && Verdict(other, allowed, mailFrom) != Member(allowed, mailFrom)
  {
    hide AfterLastAt, PolicyText;
    other := (a, t) => false;
    var search := ReadOptions(mailFrom[1..], false);
    if search.Search? {
      OptionPattern(mailFrom[1..], false);
    }
    if search.Search? && search.inverted {
      var longer := mailFrom + mailFrom;
      allowed := [longer];
      assert longer in allowed && longer[0] == '-' && longer != search.pattern && longer != mailFrom;
      assert ("@" + AfterLastAt(mailFrom))[0] == '@';
    } else {
      allowed := [mailFrom];
      assert ("@" + AfterLastAt(mailFrom))[0] == '@' && mailFrom[0] == '-';
    }
  }

  lemma AfterLastAtSuffix(before: string, d: string)
    requires '@' !in d
    ensures AfterLastAt(before + "@" + d) == d
  {
    SplitConcat(before, '@', d);
    assert before + ['@'] + d == before + "@" + d;
    assert Split(d, '@') == [d];
  }

  /** A policy line with an at-sign in front admits every sender whose domain it names. */
  lemma DomainPolicyAdmitsDomain(other: OtherAnswers, policies: map<string, string>, authAs: string,
      allowed: seq<string>, local: string, d: string)
    requires authAs != "" && authAs in policies && policies[authAs] == PolicyText(allowed)
    requires OneLine(local) && OneLine(d) && OneLineEach(allowed) && d != "" && '@' !in d
    requires "@" + d in allowed
    ensures HookAccepts(other, policies, authAs, local + "@" + d)
  {
    hide Grep, PolicyText, AfterLastAt;
    AfterLastAtSuffix(local, d);
    DomainSearchIff(other, allowed, local + "@" + d);
  }

  /** The policy that provisioning writes for a built address admits exactly that address among
      the senders that are not read as options; of the others it admits those whose options
      search for the address, or for anything else inverted. */
  lemma ProvisionedPolicyVerdict(toAscii: ToAscii, hasPort: PortSplit, local: string, fqdn: string,
      other: OtherAnswers, policies: map<string, string>, mailFrom: string)
    requires BuildAddress(toAscii, hasPort, local, fqdn).Some? && Trimmed(local) && OneLine(mailFrom)
    ensures var address := BuildAddress(toAscii, hasPort, local, fqdn).value;
      var accepted := HookAccepts(other, policies[address := PolicyText([address])], address, mailFrom);
      && (!IsOption(mailFrom) ==> (accepted <==> mailFrom == address))
      && (IsOption(mailFrom) && ReadOptions(mailFrom[1..], false).Search? ==>
           (accepted <==> (ReadOptions(mailFrom[1..], false).pattern == address)
                          != ReadOptions(mailFrom[1..], false).inverted))
  {
    hide HookAccepts, PolicyText, AfterLastAt, Normalized;
    var address := BuildAddress(toAscii, hasPort, local, fqdn).value;
    AddressSuitsAliasFile(toAscii, hasPort, local, fqdn);
    LowerDotAtom(local);
    assert Lower(local)[0] in Lower(local);
    assert address[0] == Lower(local)[0] && address[0] != '@';
    assert OneLine([address][0]);
    HookIsVerdict(other, policies[address := PolicyText([address])], address, [address], mailFrom);
    if IsOption(mailFrom) && ReadOptions(mailFrom[1..], false).Search? {
      OnlyOne(address, ReadOptions(mailFrom[1..], false).pattern);
    }
    assert ("@" + AfterLastAt(mailFrom))[0] == '@';
  }

  lemma OnlyOne(address: string, p: string)
    ensures (exists l :: l in [address] && l != p) <==> p != address
  {
    assert address in [address];
  }

  /** So a sender that is no address at all, `-ve` before any other text, is accepted for every
      mailbox, and `-e` before the mailbox's own address too. */
  lemma OptionSendersAreAccepted(toAscii: ToAscii, hasPort: PortSplit, local: string, fqdn: string,
      other: OtherAnswers, policies: map<string, string>, x: string)
    requires BuildAddress(toAscii, hasPort, local, fqdn).Some? && Trimmed(local) && OneLine(x) && x != ""
    ensures var address := BuildAddress(toAscii, hasPort, local, fqdn).value;
      var installed := policies[address := PolicyText([address])];
      && (HookAccepts(other, installed, address, "-ve" + x) <==> x != address)
      && (HookAccepts(other, installed, address, "-e" + x) <==> x == address)
  {
    hide HookAccepts, PolicyText, BuildAddress;
    OptionsRead(x);
    assert OneLine("-ve" + x) && OneLine("-e" + x);
    ProvisionedPolicyVerdict(toAscii, hasPort, local, fqdn, other, policies, "-ve" + x);
    ProvisionedPolicyVerdict(toAscii, hasPort, local, fqdn, other, policies, "-e" + x);
  }

  lemma OptionsRead(x: string)
    requires x != ""
    ensures ReadOptions(("-ve" + x)[1..], false) == Search(x, true)
    ensures ReadOptions(("-e" + x)[1..], false) == Search(x, false)
  {
    assert ("-ve" + x)[1..] == ['v'] + ("e" + x);
    assert (['v'] + ("e" + x))[1..] == "e" + x;
    assert ("-e" + x)[1..] == "e" + x;
    assert ("e" + x)[1..] == x;
  }

  /** What the expansion keeps: the last part without an at-sign. */
  lemma AfterLastAtIs(s: string) returns (before: string)
    ensures '@' !in AfterLastAt(s) && s == before + AfterLastAt(s)
    ensures before == "" || before[|before| - 1] == '@'
  {
    hide Split, Join;
    var pieces := Split(s, '@');
    var n := |pieces| - 1;
    SplitPieces(s, '@');
    JoinSplit(s, '@');
    assert pieces == pieces[..n] + [pieces[n]] && pieces[n] in pieces;
    JoinOne(pieces[n], "@");
    if n == 0 {
      assert pieces == [pieces[0]];
      before := "";
    } else {
      JoinConcat(pieces[..n], [pieces[n]], "@");
      before := Join(pieces[..n], "@") + "@";
    }
  }

  lemma JoinOne(x: string, sep: string)
    ensures Join([x], sep) == x
  {
  }

  /** Options that change nothing or invert, then `e` and the pattern. */
  ghost predicate AsksFor(cluster: string, p: string, inverted: bool) {
    p != "" && exists flags ::
      && cluster == flags + "e" + p && (inverted <==> 'v' in flags)
      && forall c :: c in flags ==> c == 'v' || c == 'F' || c == 'x' || c == 'q'
  }

  /** A cluster of options is a search for what follows the `e` that ends the options which
      change nothing or invert, and for nothing else. */
  lemma ReadOptionsIff(cluster: string, p: string, inverted: bool)
    ensures ReadOptions(cluster, false) == Search(p, inverted) <==> AsksFor(cluster, p, inverted)
  {
    if ReadOptions(cluster, false) == Search(p, inverted) {
      var flags := FlagsRead(cluster, false, p, inverted);
    }
    if AsksFor(cluster, p, inverted) {
      var flags :| cluster == flags + "e" + p && (inverted <==> 'v' in flags)
        && forall c :: c in flags ==> c == 'v' || c == 'F' || c == 'x' || c == 'q';
      ReadsFlags(flags, p, false);
    }
  }

  lemma {:induction false} FlagsRead(cluster: string, before: bool, p: string, inverted: bool) returns (flags: string)
    requires ReadOptions(cluster, before) == Search(p, inverted)
    ensures p != "" && cluster == flags + "e" + p && (inverted <==> before || 'v' in flags)
    ensures forall c :: c in flags ==> c == 'v' || c == 'F' || c == 'x' || c == 'q'
  {
    assert cluster == [cluster[0]] + cluster[1..];
    if cluster[0] == 'e' {
      flags := "";
    } else {
      var rest := FlagsRead(cluster[1..], before || cluster[0] == 'v', p, inverted);
      flags := [cluster[0]] + rest;
    }
  }

  lemma {:induction false} ReadsFlags(flags: string, p: string, before: bool)
    requires p != "" && forall c :: c in flags ==> c == 'v' || c == 'F' || c == 'x' || c == 'q'
    ensures ReadOptions(flags + "e" + p, before) == Search(p, before || 'v' in flags)
  {
    var cluster := flags + "e" + p;
    if flags == "" {
      assert cluster[1..] == p;
    } else {
      assert flags[0] in flags && flags == [flags[0]] + flags[1..];
      assert cluster[1..] == flags[1..] + "e" + p;
      assert forall c :: c in flags[1..] ==> c in flags;
      ReadsFlags(flags[1..], p, before || flags[0] == 'v');
    }
  }

  /** Mail without an authenticated user passes, whatever policies there are. */
  lemma UnauthenticatedPasses(other: OtherAnswers, policies: map<string, string>, mailFrom: string)
    ensures HookAccepts(other, policies, "", mailFrom)
  {
  }

  /** While no policy file is installed the hook refuses an authenticated user everything, its
      own address included; and so does an empty one, to senders not read as options. */
  lemma MissingPolicyRefusesAll(other: OtherAnswers, policies: map<string, string>, authAs: string, mailFrom: string)
    requires authAs != ""
    ensures authAs !in policies ==> !HookAccepts(other, policies, authAs, mailFrom)
    ensures authAs in policies && policies[authAs] == "" && OneLine(mailFrom) && !IsOption(mailFrom) ==>
      !HookAccepts(other, policies, authAs, mailFrom)
  {
    hide Grep, AfterLastAt;
    if OneLine(mailFrom) && !IsOption(mailFrom) && authAs in policies && policies[authAs] == "" {
      assert PolicyText([]) == "";
      HookIsMembership(other, policies, authAs, [], mailFrom);
    }
  }
}
