/**
 ArgoCD's policy.csv: the printer that grants the admin role to a list of groups,
 and the reader that finds the groups again.
 */
module RbacPolicy {
  import opened Text

  predicate GroupChar(c: char) {
    'A' <= c <= 'Z' || 'a' <= c <= 'z' || '0' <= c <= '9' || c in "_.:@/-"
  }

  /** ^[A-Za-z0-9_.:@/-]+$ */
  predicate ValidRBACGroup(g: string) {
    g != "" && forall c | c in g :: GroupChar(c)
  }

  const INDENT := "    "
  const TAIL := " role:admin"

  /** One policy line without indentation or line end. */
  function Grant(group: string): string {
    "g" + [','] + ([' '] + group + [','] + TAIL)
  }

  /** The groups that are granted anything: trimmed, then non-empty and valid. */
  function Granted(groups: seq<string>): seq<string> {
    if groups == [] then []
    else
      var g := Trim(groups[0]);
      (if ValidRBACGroup(g) then [g] else []) + Granted(groups[1..])
  }

  function Lines(indent: string, granted: seq<string>): string {
    if granted == [] then "" else indent + Grant(granted[0]) + ['\n'] + Lines(indent, granted[1..])
  }

  method BuildPolicyLines(groups: seq<string>) returns (policy: string)
    ensures policy == Lines(INDENT, Granted(groups))
  {
    policy := "";
    for i := 0 to |groups|
      invariant policy + Lines(INDENT, Granted(groups[i..])) == Lines(INDENT, Granted(groups))
    {
      var group := Trim(groups[i]);
      assert groups[i..][0] == groups[i] && groups[i..][1..] == groups[i + 1..];
      GrantedStep(groups[i..]);
      if group == "" {
        continue;
      }
      if !ValidRBACGroup(group) {
        continue;
      }
      ghost var before := policy;
      policy := policy + (INDENT + Grant(group) + ['\n']);
      Assoc(before, INDENT + Grant(group) + ['\n'], Lines(INDENT, Granted(groups[i + 1..])));
    }
    assert policy + "" == policy;
  }

  lemma GrantedStep(groups: seq<string>)
    requires groups != []
    ensures var g := Trim(groups[0]);
            Lines(INDENT, Granted(groups)) ==
            (if ValidRBACGroup(g) then INDENT + Grant(g) + ['\n'] else "") + Lines(INDENT, Granted(groups[1..]))
  {
    hide Grant, Trim, ValidRBACGroup;
    var rest := Granted(groups[1..]);
    assert [] + rest == rest && "" + Lines(INDENT, rest) == Lines(INDENT, rest);
    assert ([Trim(groups[0])] + rest)[1..] == rest;
  }

  lemma Assoc(a: string, b: string, c: string)
    ensures a + b + c == a + (b + c)
  {
  }

  /** What one line of the file contributes. */
  function GroupsOf(line: string): seq<string> {
    var text := Trim(line);
    if HasPrefix(text, "g,") then
      var parts := Split(text, ',');
      if |parts| >= 2 && Trim(parts[1]) != "" then [Trim(parts[1])] else []
    else []
  }

  function ReadGroups(lines: seq<string>): seq<string> {
    if lines == [] then [] else GroupsOf(lines[0]) + ReadGroups(lines[1..])
  }

  method ParseRBACGroups(policy: string) returns (groups: seq<string>)
    ensures groups == ReadGroups(Split(policy, '\n'))
  {
    hide Trim, Split;
    groups := [];
    var lines := Split(policy, '\n');
    for i := 0 to |lines|
      invariant groups + ReadGroups(lines[i..]) == ReadGroups(lines)
    {
      var line := Trim(lines[i]);
      assert lines[i..][1..] == lines[i + 1..];
      assert groups + (GroupsOf(lines[i]) + ReadGroups(lines[i + 1..]))
          == groups + GroupsOf(lines[i]) + ReadGroups(lines[i + 1..]);
      if HasPrefix(line, "g,") {
        var parts := Split(line, ',');
        if |parts| >= 2 {
          var group := Trim(parts[1]);
          if group != "" {
            groups := groups + [group];
          }
        }
      }
    }
    assert groups + [] == groups;
  }

  // ---- reading back what was printed ----

  lemma ValidIsPlain(g: string)
    requires ValidRBACGroup(g)
    ensures ',' !in g && '\n' !in g && Trim(g) == g && Trim([' '] + g) == g
  {
    assert GroupChar(g[0]) && GroupChar(g[|g| - 1]);
    TrimTight(g);
    TrimLeftSkips([' '], g);
  }

  lemma GrantText(group: string)
    ensures var t := Grant(group);
            |t| > 2 && t[0] == 'g' && t[1] == ',' && t[|t| - 1] == 'n' && ('\n' in t ==> '\n' in group)
    ensures HasPrefix(Grant(group), "g,")
  {
    assert Grant(group)[..2] == "g,";
  }

  lemma GrantParts(group: string)
    requires ',' !in group
    ensures Split(Grant(group), ',') == ["g", [' '] + group, TAIL]
  {
    hide Split;
    var rest := [' '] + group + [','] + TAIL;
    SplitAppend("g", rest, ',');
    SplitAppend([' '] + group, TAIL, ',');
    SplitFree("g", ',');
    SplitFree([' '] + group, ',');
    SplitFree(TAIL, ',');
  }

  lemma GrantReads(indent: string, group: string)
    requires ValidRBACGroup(group) && forall c | c in indent :: IsSpace(c)
    ensures GroupsOf(indent + Grant(group)) == [group]
  {
    ValidIsPlain(group);
    GrantText(group);
    GrantParts(group);
    TrimLeftSkips(indent, Grant(group));
    assert !IsSpace('g') && !IsSpace('n');
    TrimTight(Grant(group));
    hide Grant, Split, TrimLeft, TrimRight;
    assert Trim(indent + Grant(group)) == Trim(Grant(group));
  }

  ghost predicate AllValid(groups: seq<string>) {
    forall g | g in groups :: ValidRBACGroup(g)
  }

  lemma {:induction false} LinesRead(indent: string, granted: seq<string>)
    requires AllValid(granted) && (forall c | c in indent :: IsSpace(c)) && '\n' !in indent
    ensures ReadGroups(Split(Lines(indent, granted), '\n')) == granted
  {
    hide Grant, GroupsOf;
    if granted == [] {
      BlankReads();
    } else {
      var g, rest := granted[0], Lines(indent, granted[1..]);
      assert g in granted && AllValid(granted[1..]);
      LinesRead(indent, granted[1..]);
      ValidIsPlain(g);
      GrantText(g);
      SplitAppend(indent + Grant(g), rest, '\n');
      SplitFree(indent + Grant(g), '\n');
      GrantReads(indent, g);
      assert ([indent + Grant(g)] + Split(rest, '\n'))[1..] == Split(rest, '\n');
    }
  }

  lemma BlankReads()
    ensures ReadGroups(Split("", '\n')) == []
  {
    assert [""][1..] == [];
  }

  lemma {:induction false} GrantedAreValid(groups: seq<string>)
    ensures AllValid(Granted(groups))
  {
    if groups == [] {
    } else {
      GrantedAreValid(groups[1..]);
    }
  }

  // ---- what is granted, and how it is printed ----

  const MARKS := {'_', '.', ':', '@', '/', '-'}
  /** The characters of a group that is granted anything. */
  const SAFE := UPPER + LOWER + NUMERALS + MARKS

  lemma SafeIs(c: char)
    ensures c in SAFE <==> GroupChar(c)
  {
    LettersAre(c);
    MarksAre(c);
    hide UPPER, LOWER, NUMERALS, MARKS;
  }

  lemma MarksAre(c: char)
    ensures c in MARKS <==> c in "_.:@/-"
  {
  }

  lemma ValidIsSafe(g: string)
    ensures ValidRBACGroup(g) <==> g != "" && forall c | c in g :: c in SAFE
  {
    forall c: char
      ensures c in SAFE <==> GroupChar(c)
    {
      SafeIs(c);
    }
    hide SAFE, GroupChar, UPPER, LOWER, NUMERALS, MARKS;
  }

  /** What is granted is exactly the groups listed, without the space around them, that are made
      of safe characters, and at least one: none of them opens another line of the policy. */
  lemma {:induction false} GrantedExactly(groups: seq<string>, g: string)
    ensures g in Granted(groups) <==> && g != "" && (forall c | c in g :: c in SAFE)
                                      && exists i | 0 <= i < |groups| :: Trim(groups[i]) == g
  {
    hide SAFE, UPPER, LOWER, NUMERALS, MARKS, Trim, ValidRBACGroup;
    ValidIsSafe(g);
    if groups == [] {
    } else {
      GrantedExactly(groups[1..], g);
      var rest := Granted(groups[1..]);
      assert g in Granted(groups) <==> (Trim(groups[0]) == g && ValidRBACGroup(g)) || g in rest;
      if i :| 0 <= i < |groups[1..]| && Trim(groups[1..][i]) == g {
        assert Trim(groups[i + 1]) == g;
      }
      if i :| 0 <= i < |groups| && Trim(groups[i]) == g && i > 0 {
        assert Trim(groups[1..][i - 1]) == g;
      }
    }
  }

  /** One group more prints one line more, at the end. */
  lemma {:induction false} PrintedOneMore(granted: seq<string>, g: string)
    ensures Lines(INDENT, granted + [g]) == Lines(INDENT, granted) + ("    g, " + g + ", role:admin\n")
    ensures Lines(INDENT, []) == ""
  {
    if granted == [] {
      assert ([] + [g])[1..] == [];
      assert INDENT + Grant(g) + ['\n'] + "" == "    g, " + g + ", role:admin\n";
      assert [] + [g] == [g];
    } else {
      hide Grant;
      PrintedOneMore(granted[1..], g);
      assert (granted + [g])[1..] == granted[1..] + [g];
      Assoc(INDENT + Grant(granted[0]) + ['\n'], Lines(INDENT, granted[1..]), "    g, " + g + ", role:admin\n");
    }
  }

  /** For every list of groups, the printed policy reads back as exactly the
      trimmed, non-empty, valid ones, in order. */
  lemma PolicyRoundTrip(groups: seq<string>)
    ensures ReadGroups(Split(Lines(INDENT, Granted(groups)), '\n')) == Granted(groups)
  {
    GrantedAreValid(groups);
    LinesRead(INDENT, Granted(groups));
  }

  // ---- through the YAML block scalar the lines are stored in ----

  /** A block scalar's content: its lines without the block's indentation. */
  function Dedented(lines: seq<string>): seq<string> {
    if lines == [] then []
    else [if HasPrefix(lines[0], INDENT) then lines[0][4..] else lines[0]] + Dedented(lines[1..])
  }

  lemma {:induction false} DedentedLines(granted: seq<string>)
    requires AllValid(granted)
    ensures Dedented(Split(Lines(INDENT, granted), '\n')) == Split(Lines("", granted), '\n')
  {
    hide Grant;
    if granted == [] {
      assert [""][1..] == [];
    } else {
      var g := granted[0];
      assert g in granted && AllValid(granted[1..]);
      DedentedLines(granted[1..]);
      ValidIsPlain(g);
      GrantText(g);
      var line, rest := INDENT + Grant(g), Lines(INDENT, granted[1..]);
      assert "" + Grant(g) == Grant(g);
      SplitFree(line, '\n');
      SplitFree(Grant(g), '\n');
      SplitAppend(line, rest, '\n');
      SplitAppend(Grant(g), Lines("", granted[1..]), '\n');
      assert line[4..] == Grant(g);
      assert ([line] + Split(rest, '\n'))[1..] == Split(rest, '\n');
    }
  }

  /** The same through the stored ConfigMap, for every list of groups. */
  lemma StoredPolicyRoundTrip(groups: seq<string>)
    ensures ReadGroups(Dedented(Split(Lines(INDENT, Granted(groups)), '\n'))) == Granted(groups)
  {
    GrantedAreValid(groups);
    DedentedLines(Granted(groups));
    LinesRead("", Granted(groups));
  }

  /** A list already in granted form survives unchanged. */
  lemma {:induction false} GrantedIsStable(groups: seq<string>)
    requires AllValid(groups)
    ensures Granted(groups) == groups
  {
    if groups == [] {
    } else {
      assert groups[0] in groups && AllValid(groups[1..]);
      ValidIsPlain(groups[0]);
      GrantedIsStable(groups[1..]);
      assert groups == [groups[0]] + groups[1..];
    }
  }
}
