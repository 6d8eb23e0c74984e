/**
 What no run of deletion passes ever does, whatever copies it works from, wherever it is
 killed and whichever calls and status writes are lost.
 */
module DeletionSafety {
  import opened Wrappers
  import opened Text
  import opened Turns
  import opened Conditions
  import opened VClusters
  import opened BackupSelection
  import opened DeletionWorld
  import opened Deletion

  // ---- who says no ----

  predicate Blank(s: string) {
    forall c | c in s :: IsSpace(c)
  }

  /** The same letters, `word` in lower case. */
  predicate Spells(text: string, word: string) {
    && |text| == |word|
    && forall k | 0 <= k < |text| :: text[k] == word[k] || ('A' <= text[k] <= 'Z' && word[k] as int == text[k] as int + 32)
  }

  predicate SpellsNo(text: string) {
    || Spells(text, "") || Spells(text, "false") || Spells(text, "no") || Spells(text, "non") || Spells(text, "0")
    || Spells(text, "off")
  }

  /** An override annotation that lifts nothing: a word for no, or none, whatever the space
      around it and the case of its letters. */
  ghost predicate SaysNo(v: string) {
    exists i, j | 0 <= i <= j <= |v| :: Blank(v[..i]) && Blank(v[j..]) && SpellsNo(v[i..j])
  }

  lemma {:induction false} TrimLeftOfBlank(s: string)
    requires Blank(s)
    ensures Trim(s) == ""
  {
    if s == "" {
    } else {
      TrimLeftOfBlank(s[1..]);
    }
  }

  lemma {:induction false} TrimRightSkips(s: string, w: string)
    requires Blank(w)
    ensures TrimRight(s + w) == TrimRight(s)
    decreases |w|
  {
    if w == "" {
      assert s + w == s;
    } else {
      assert (s + w)[..|s + w| - 1] == s + w[..|w| - 1];
      assert IsSpace(w[|w| - 1]);
      TrimRightSkips(s, w[..|w| - 1]);
    }
  }

  /** Trimming takes away the space around a word that has none at its ends. */
  lemma TrimmedWord(a: string, w: string, b: string)
    requires Blank(a) && Blank(b) && (w != "" ==> !IsSpace(w[0]) && !IsSpace(w[|w| - 1]))
    ensures Trim(a + w + b) == w
  {
    if w == "" {
      TrimLeftOfBlank(a + w + b);
    } else {
      assert a + w + b == a + (w + b);
      TrimLeftSkips(a, w + b);
      assert (w + b)[0] == w[0];
      TrimRightSkips(w, b);
    }
  }

  /** What trimming leaves sits between blanks. */
  lemma TrimSits(v: string) returns (i: nat, j: nat)
    ensures i <= j <= |v| && Blank(v[..i]) && Blank(v[j..]) && v[i..j] == Trim(v)
  {
    TrimLeftShape(v);
    var left := TrimLeft(v);
    i := |v| - |left|;
    TrimRightBlank(left);
    TrimRightShape(left);
    j := i + |Trim(v)|;
    assert v[i..] == left && left[|Trim(v)|..] == v[j..];
  }

  lemma {:induction false} TrimRightBlank(s: string)
    ensures |TrimRight(s)| <= |s| && Blank(s[|TrimRight(s)|..])
  {
    if s != "" && IsSpace(s[|s| - 1]) {
      TrimRightBlank(s[..|s| - 1]);
      var n := |TrimRight(s)|;
      assert s[n..] == s[..|s| - 1][n..] + [s[|s| - 1]];
    } else {
      assert s[|s|..] == "";
    }
  }

  lemma LowerSpells(text: string, word: string)
    requires forall k | 0 <= k < |word| :: !('A' <= word[k] <= 'Z')
    ensures Lower(text) == word <==> Spells(text, word)
  {
    var low := Lower(text);
    assert |low| == |text|;
    if Spells(text, word) {
      assert forall k | 0 <= k < |text| :: low[k] == word[k];
    }
  }

  lemma LowerSpellsNo(text: string)
    ensures Lower(text) in NEGATIVES <==> SpellsNo(text)
  {
    LowerSpells(text, "");
    LowerSpells(text, "false");
    LowerSpells(text, "no");
    LowerSpells(text, "non");
    LowerSpells(text, "0");
    LowerSpells(text, "off");
    hide Lower, Spells;
  }

  lemma NoHasNoSpace(text: string)
    requires SpellsNo(text) && text != ""
    ensures !IsSpace(text[0]) && !IsSpace(text[|text| - 1])
  {
  }

  /** The operator takes an override for a decision exactly when it does not say no. */
  lemma OverrideMeans(v: string)
    ensures OverrideDisarms(v) <==> !SaysNo(v)
  {
    LowerSpellsNo(Trim(v));
    var i, j := TrimSits(v);
    hide Lower, SpellsNo, Trim, Blank;
    assert v[i..j] == Trim(v);
    if SaysNo(v) {
      var a, b :| 0 <= a <= b <= |v| && Blank(v[..a]) && Blank(v[b..]) && SpellsNo(v[a..b]);
      if v[a..b] != "" {
        NoHasNoSpace(v[a..b]);
      }
      TrimmedWord(v[..a], v[a..b], v[b..]);
      assert v[..a] + v[a..b] + v[b..] == v;
    }
  }

  // ---- what a pass has learnt, read off the log ----

  /** What the current pass knows: what its copy said, what it saw, and what it did. */
  datatype Facts = Facts(lifted: bool, override: string, sawNothing: bool, covered: bool,
                         protectionRead: bool, unprotected: bool, torn: bool, gone: bool, concluded: bool)

  predicate Gone(look: Look, at: int) {
    look == SawAbsent || (look.SawTerminating? && at - look.since > 600)
  }

  function Learn(f: Facts, e: Entry): Facts {
    match e
    case Started(lifted, override) => Facts(lifted, override, false, false, false, false, false, false, false)
    case LookedAt(look, at) => f.(sawNothing := f.sawNothing || look == SawAbsent, gone := Gone(look, at))
    case ListedBackups(covered) => f.(covered := covered)
    case ReadProtection(protected) => f.(protectionRead := true, unprotected := !protected)
    case LiftedProtection => f.(unprotected := true)
    case TornDown => f.(torn := true)
    case StoredStatus(concluded) => f.(concluded := concluded)
    case _ => f
  }

  function FactsOf(log: seq<Entry>): Facts {
    if log == [] then Facts(false, "", false, false, false, false, false, false, false)
    else Learn(FactsOf(log[..|log| - 1]), log[|log| - 1])
  }

  /** When an entry may follow what the pass knows. `strict` leaves no excuse for
      destroying without a backup. */
  ghost predicate Allowed(f: Facts, e: Entry, strict: bool) {
    match e
    case DeletedNamespace(_) =>
      && f.lifted && f.protectionRead && f.unprotected && f.torn
      && (f.covered || (!strict && (!SaysNo(f.override) || f.sawNothing)))
    case Released => f.gone && f.concluded
    case _ => true
  }

  /** Every destruction and the release were allowed, and no namespace was deleted twice. */
  ghost predicate Justified(log: seq<Entry>, strict: bool) {
    log == []
    || (var front, e := log[..|log| - 1], log[|log| - 1];
        Justified(front, strict) && Allowed(FactsOf(front), e, strict) && (e.DeletedNamespace? ==> e !in front))
  }

  // ---- the invariant ----

  /** No namespace now live was ever deleted; identities are not reused. */
  ghost predicate NamesFresh(c: Cluster) {
    && (!c.ns.Absent? ==> c.ns.id < c.nextId)
    && (forall id: nat | DeletedNamespace(id) in c.log :: id < c.nextId)
    && (c.ns.Live? ==> DeletedNamespace(c.ns.id) !in c.log)
  }

  ghost predicate Undeleted(c: Cluster) {
    !c.ns.Absent? ==> DeletedNamespace(c.ns.id) !in c.log
  }

  /** A namespace condemned by the operator has its backup. */
  ghost predicate Netted(c: Cluster) {
    && (FactsOf(c.log).sawNothing ==> c.ns.Absent?)
    && (FactsOf(c.log).covered ==> Covered(c.backups, c.cr.deletedAt))
    && (c.ns.Terminating? && c.ns.byOperator ==> Covered(c.backups, c.cr.deletedAt))
    && SaysNo(c.cr.override)
  }

  ghost predicate Inv(c: Cluster, strict: bool) {
    Justified(c.log, strict) && NamesFresh(c) && (strict ==> Netted(c))
  }

  // ---- what the outside may do ----

  /** Nobody else creates the namespace anew, nobody removes backups, nobody disarms the net. */
  ghost predicate Calm(e: Event) {
    !e.NamespaceAppears? && !e.VeleroForgets? && (e.Edited? ==> SaysNo(e.override))
  }

  ghost predicate CalmAll(es: seq<Event>, strict: bool) {
    strict ==> forall e | e in es :: Calm(e)
  }

  ghost predicate CalmPass(p: Pass, strict: bool) {
    && CalmAll(p.idle, strict) && CalmAll(p.rancher.before, strict) && CalmAll(p.unpair.before, strict)
    && CalmAll(p.firstLook.before, strict) && CalmAll(p.inspect.before, strict) && CalmAll(p.trigger.before, strict)
    && CalmAll(p.protection.before, strict) && CalmAll(p.lift.before, strict) && CalmAll(p.teardown.before, strict)
    && CalmAll(p.look.before, strict) && CalmAll(p.delete.before, strict) && CalmAll(p.lookAgain.before, strict)
    && CalmAll(p.store.before, strict) && CalmAll(p.release.before, strict)
    && (strict && p.stale.Some? ==> SaysNo(p.stale.value.override))
  }

  lemma CoveredStays(c: Cluster, e: Event)
    requires Covered(c.backups, c.cr.deletedAt) && !e.VeleroForgets?
    ensures Covered(Happen(c, e).backups, c.cr.deletedAt)
  {
    var i :| 0 <= i < |c.backups| && c.backups[i].phase == "Completed" && InTime(c.backups[i], c.cr.deletedAt);
    var d := Happen(c, e);
    assert d.backups[i] == c.backups[i];
    assert d.backups[i] in d.backups;
  }

  lemma EventKeeps(c: Cluster, e: Event, strict: bool)
    requires Inv(c, strict) && (strict ==> Calm(e))
    ensures var c' := Happen(c, e);
            && Inv(c', strict) && (Undeleted(c) ==> Undeleted(c'))
            && c'.log == c.log && c'.cr.wellPlaced == c.cr.wellPlaced && c'.cr.deletedAt == c.cr.deletedAt
  {
    hide SaysNo, FactsOf, Justified, Covered, IsTerminalBackupPhase;
    if strict && Covered(c.backups, c.cr.deletedAt) {
      CoveredStays(c, e);
    }
  }

  lemma {:induction false} EventsKeep(c: Cluster, es: seq<Event>, strict: bool)
    requires Inv(c, strict) && CalmAll(es, strict)
    ensures var c' := HappenAll(c, es);
            && Inv(c', strict) && (Undeleted(c) ==> Undeleted(c'))
            && c'.log == c.log && c'.cr.wellPlaced == c.cr.wellPlaced && c'.cr.deletedAt == c.cr.deletedAt
  {
    hide Happen, Inv, Undeleted, Calm;
    if es == [] {
    } else {
      EventsKeep(c, es[..|es| - 1], strict);
      EventKeeps(HappenAll(c, es[..|es| - 1]), es[|es| - 1], strict);
    }
  }

  // ---- the log grows one justified entry at a time ----

  lemma Snoc(log: seq<Entry>, e: Entry, strict: bool)
    ensures FactsOf(log + [e]) == Learn(FactsOf(log), e)
    ensures Justified(log + [e], strict) <==>
            Justified(log, strict) && Allowed(FactsOf(log), e, strict) && (e.DeletedNamespace? ==> e !in log)
  {
    var l := log + [e];
    assert l[..|l| - 1] == log;
  }

  /** Recording what was seen keeps the invariant when it is true of the state. */
  lemma LoggingKeeps(c: Cluster, e: Entry, strict: bool)
    requires Inv(c, strict) && !e.DeletedNamespace? && Allowed(FactsOf(c.log), e, strict)
    requires strict ==> (e.LookedAt? && e.look == SawAbsent ==> c.ns.Absent?)
                        && (e.ListedBackups? && e.covered ==> Covered(c.backups, c.cr.deletedAt))
    ensures Inv(Logged(c, e), strict) && FactsOf(Logged(c, e).log) == Learn(FactsOf(c.log), e)
    ensures Undeleted(c) ==> Undeleted(Logged(c, e))
  {
    Snoc(c.log, e, strict);
    hide FactsOf, Justified, Covered, SaysNo;
  }

  /** What a step that is not the last leaves: the same pass, the same object. */
  ghost predicate SamePass(c: Cluster, c': Cluster) {
    var f, f' := FactsOf(c.log), FactsOf(c'.log);
    f.lifted == f'.lifted && f.override == f'.override
    && c'.cr.wellPlaced == c.cr.wellPlaced && c'.cr.deletedAt == c.cr.deletedAt
  }

  // ---- step by step ----

  lemma RancherKeeps(c: Cluster, copy: CR, st: Status, p: Pass, strict: bool)
    requires Inv(c, strict) && CalmPass(p, strict)
    ensures var g := RancherStep(c, copy, st, p);
            Inv(g.c, strict) && SamePass(c, g.c)
  {
    hide FactsOf, Inv, Overdue, Set, Find, HappenAll;
    EventsKeep(c, p.rancher.before, strict);
    var c1 := At(c, p.rancher);
    EventsKeep(c1, p.unpair.before, strict);
    LoggingKeeps(At(c1, p.unpair), AskedUnpair, strict);
  }

  lemma LookKeeps(c: Cluster, t: Turn, strict: bool)
    requires Inv(c, strict) && CalmAll(t.before, strict)
    ensures var (c', look) := LookAtNamespace(c, t);
            && Inv(c', strict) && SamePass(c, c')
            && (Undeleted(c) ==> Undeleted(c'))
            && (look == SawLive ==> Undeleted(c'))
            && (look == SawAbsent && Alive(t) ==> FactsOf(c'.log).sawNothing)
            && (Alive(t) ==> FactsOf(c'.log).gone == Gone(look, c'.now))
            && FactsOf(c'.log).protectionRead == FactsOf(c.log).protectionRead
            && FactsOf(c'.log).unprotected == FactsOf(c.log).unprotected && FactsOf(c'.log).torn == FactsOf(c.log).torn
            && FactsOf(c'.log).covered == FactsOf(c.log).covered
            && (FactsOf(c.log).sawNothing ==> FactsOf(c'.log).sawNothing)
            && (t.fate != Served ==> look == Unreadable)
  {
    hide FactsOf, Justified, Covered, SaysNo, HappenAll;
    EventsKeep(c, t.before, strict);
    var c1 := At(c, t);
    var look := if t.fate == Served then LookOf(c1.ns) else Unreadable;
    LoggingKeeps(c1, LookedAt(look, c1.now), strict);
  }

  /** Going on from the backup step takes a backup, an override, or nothing to save. */
  ghost predicate Safeguarded(c: Cluster) {
    var f := FactsOf(c.log);
    f.covered || !SaysNo(f.override) || f.sawNothing
  }

  lemma JudgedKeeps(c: Cluster, copy: CR, st: Status, seen: DeletionBackup, launched: bool, p: Pass, strict: bool)
    requires Inv(c, strict) && CalmPass(p, strict) && FactsOf(c.log).covered == seen.completed
    ensures var g := Judged(c, copy, st, seen, launched, p);
            Inv(g.c, strict) && SamePass(c, g.c) && (g.v == Continue ==> Safeguarded(g.c))
  {
    hide FactsOf, Overdue, Set, Find, HappenAll, Justified, Covered, SaysNo;
    EventsKeep(c, p.trigger.before, strict);
    var c1 := At(c, p.trigger);
    var c2 := c1.(backups := c1.backups + [Backup(p.backupName, "", 0, 0)]);
    if strict && Covered(c1.backups, c1.cr.deletedAt) {
      CoveredStays(c1, VeleroLists(Backup(p.backupName, "", 0, 0)));
    }
    LoggingKeeps(c2, CreatedBackup, strict);
  }

  lemma InspectKeeps(c: Cluster, t: Turn, since: int, strict: bool)
    requires Inv(c, strict) && CalmAll(t.before, strict) && since == c.cr.deletedAt
    ensures var (c', seen) := InspectBackups(c, t, since);
            && Inv(c', strict) && SamePass(c, c')
            && (seen.Some? ==> FactsOf(c'.log).covered == seen.value.completed)
  {
    hide FactsOf, HappenAll, SaysNo, Justified, Pick;
    EventsKeep(c, t.before, strict);
    var c1 := At(c, t);
    CompletedMeansCovered(c1.backups, since);
    LoggingKeeps(c1, ListedBackups(Pick(c1.backups, since).completed), strict);
  }

  lemma BackupKeeps(c: Cluster, copy: CR, st: Status, p: Pass, strict: bool)
    requires Inv(c, strict) && CalmPass(p, strict) && copy.deletedAt == c.cr.deletedAt
    requires FactsOf(c.log).override == copy.override
    ensures var g := BackupStep(c, copy, st, p);
            Inv(g.c, strict) && SamePass(c, g.c) && (g.v == Continue ==> Safeguarded(g.c))
  {
    OverrideMeans(copy.override);
    hide FactsOf, HappenAll, SaysNo, SaysNo, Inv, Judged, LookAtNamespace, InspectBackups, Set, Find;
    LookKeeps(c, p.firstLook, strict);
    var (c1, look) := LookAtNamespace(c, p.firstLook);
    InspectKeeps(c1, p.inspect, copy.deletedAt, strict);
    var (c2, seen) := InspectBackups(c1, p.inspect, copy.deletedAt);
    if seen.Some? {
      var st1 := AtStage(st, BackupPending);
      JudgedKeeps(c2, copy, st1, seen.value, HasReason(st1.conditions, BackupCompleted, InProgress), p, strict);
    }
  }

  lemma DeleteKeeps(c: Cluster, t: Turn, strict: bool)
    requires Inv(c, strict) && CalmAll(t.before, strict) && Undeleted(c)
    requires Allowed(FactsOf(c.log), DeletedNamespace(0), false)
    requires strict ==> SaysNo(FactsOf(c.log).override)
    ensures Inv(DeleteNamespace(c, t).0, strict) && SamePass(c, DeleteNamespace(c, t).0)
  {
    hide FactsOf, HappenAll, SaysNo, Justified, Covered;
    EventsKeep(c, t.before, strict);
    var c1 := At(c, t);
    if !c1.ns.Absent? {
      Snoc(c1.log, DeletedNamespace(c1.ns.id), strict);
      assert Allowed(FactsOf(c1.log), DeletedNamespace(c1.ns.id), strict);
    }
  }

  lemma ConclusionTells(c: Cluster, st: Status, look: Look)
    ensures var g := Conclusion(c, st, look);
            && g.c == c
            && (g.v == Continue ==> Gone(look, c.now) && Concludes(g.st))
  {
    hide Set, Find;
  }

  /** What the last step leaves when it is over. */
  ghost predicate Over(g: Go) {
    g.v == Continue ==> FactsOf(g.c.log).gone && Concludes(g.st)
  }

  lemma RemovalKeeps(c: Cluster, st: Status, p: Pass, strict: bool)
    requires Inv(c, strict) && CalmPass(p, strict)
    requires Open(c) && FactsOf(c.log).torn
    requires strict ==> SaysNo(FactsOf(c.log).override)
    ensures var g := RemovalStep(c, st, p); Inv(g.c, strict) && SamePass(c, g.c) && Over(g)
  {
    hide FactsOf, HappenAll, Inv, Undeleted, LookAtNamespace, DeleteNamespace, Conclusion, Gone, Concludes, Set, Find;
    LookKeeps(c, p.look, strict);
    var (c1, look) := LookAtNamespace(c, p.look);
    ConclusionTells(c1, st, look);
    if look == SawLive {
      DeleteKeeps(c1, p.delete, strict);
      var (c2, ok) := DeleteNamespace(c1, p.delete);
      LookKeeps(c2, p.lookAgain, strict);
      var (c3, again) := LookAtNamespace(c2, p.lookAgain);
      ConclusionTells(c3, st, again);
    }
  }

  lemma LiftKeeps(c: Cluster, t: Turn, strict: bool)
    requires Inv(c, strict) && CalmAll(t.before, strict)
    ensures var (d, ok) := LiftProtection(c, t);
            && Inv(d, strict) && SamePass(c, d) && (Safeguarded(c) ==> Safeguarded(d))
            && (FactsOf(c.log).protectionRead ==> FactsOf(d.log).protectionRead)
            && (ok ==> FactsOf(d.log).unprotected)
  {
    hide FactsOf, HappenAll, Inv, SaysNo;
    EventsKeep(c, t.before, strict);
    var c1 := At(c, t);
    if !c1.ns.Absent? {
      EventKeeps(c1, ProtectionSet(false), strict);
      LoggingKeeps(c1.(ns := c1.ns.(protected := false)), LiftedProtection, strict);
    }
  }

  /** The object may be destroyed as far as its own protection, the namespace's and the backup go. */
  ghost predicate Open(c: Cluster) {
    FactsOf(c.log).lifted && FactsOf(c.log).protectionRead && FactsOf(c.log).unprotected && Safeguarded(c)
  }

  lemma TornKeeps(c: Cluster, t: Turn, strict: bool)
    requires Inv(c, strict) && CalmAll(t.before, strict) && Open(c)
    ensures var (d, ok) := Teardown(c, t);
            Inv(d, strict) && SamePass(c, d) && Open(d) && (ok ==> FactsOf(d.log).torn)
  {
    hide FactsOf, HappenAll, Inv, SaysNo;
    EventsKeep(c, t.before, strict);
    LoggingKeeps(At(c, t), TornDown, strict);
  }

  lemma TeardownKeeps(c: Cluster, st: Status, p: Pass, strict: bool)
    requires Inv(c, strict) && CalmPass(p, strict) && Open(c)
    requires strict ==> SaysNo(FactsOf(c.log).override)
    ensures var g := TeardownStep(c, st, p); Inv(g.c, strict) && SamePass(c, g.c) && Over(g)
  {
    hide FactsOf, HappenAll, Inv, RemovalStep, Set, Find, Concludes, Teardown, SaysNo;
    TornKeeps(c, p.teardown, strict);
    var (c1, ok) := Teardown(c, p.teardown);
    if ok {
      RemovalKeeps(c1, AtStage(st, Destroying), p, strict);
    }
  }

  lemma ProtectionKeeps(c: Cluster, t: Turn, strict: bool)
    requires Inv(c, strict) && CalmAll(t.before, strict)
    ensures var (d, protected) := GetProtection(c, t);
            && Inv(d, strict) && SamePass(c, d) && (Safeguarded(c) ==> Safeguarded(d))
            && (protected.Some? ==> FactsOf(d.log).protectionRead && FactsOf(d.log).unprotected == !protected.value)
  {
    hide FactsOf, HappenAll, Inv, SaysNo;
    EventsKeep(c, t.before, strict);
    var c1 := At(c, t);
    LoggingKeeps(c1, ReadProtection(!c1.ns.Absent? && c1.ns.protected), strict);
  }

  lemma FinalKeeps(c: Cluster, st: Status, p: Pass, strict: bool)
    requires Inv(c, strict) && CalmPass(p, strict) && FactsOf(c.log).lifted && Safeguarded(c)
    requires strict ==> SaysNo(FactsOf(c.log).override)
    ensures var g := FinalStep(c, st, p); Inv(g.c, strict) && SamePass(c, g.c) && Over(g)
  {
    hide FactsOf, HappenAll, Inv, TeardownStep, Set, Find, Concludes, GetProtection, LiftProtection, SaysNo;
    ProtectionKeeps(c, p.protection, strict);
    var (c1, protected) := GetProtection(c, p.protection);
    var st1 := AtStage(st, ProtectionRemoval).(protectionEnabled := false);
    if protected == Some(true) {
      LiftKeeps(c1, p.lift, strict);
      var (c2, ok) := LiftProtection(c1, p.lift);
      if ok {
        TeardownKeeps(c2, st1, p, strict);
      }
    } else if protected == Some(false) {
      TeardownKeeps(c1, st1, p, strict);
    }
  }

  // ---- the pass ----

  lemma Unroll(c: Cluster, copy: CR, st: Status, p: Pass)
    ensures RunSteps(STEPS, c, copy, st, p) ==
            var g1 := ProtectionStep(c, copy, st);
            if g1.v != Continue then g1
            else
              var g2 := RancherStep(g1.c, copy, g1.st, p);
              if g2.v != Continue then g2
              else
                var g3 := BackupStep(g2.c, copy, g2.st, p);
                if g3.v != Continue then g3 else FinalStep(g3.c, g3.st, p)
  {
    hide ProtectionStep, RancherStep, BackupStep, FinalStep;
    var s1, s2, s3 := STEPS[1..], STEPS[2..], STEPS[3..];
    assert STEPS[0] == CheckProtection && s1[0] == TearRancher && s2[0] == DemandBackup && s3[0] == TearDown;
    assert s1[1..] == s2 && s2[1..] == s3 && s3[1..] == [];
    var g1 := ProtectionStep(c, copy, st);
    if g1.v == Continue {
      var g2 := RancherStep(g1.c, copy, g1.st, p);
      assert RunSteps(s1, g1.c, copy, g1.st, p) == if g2.v == Continue then RunSteps(s2, g2.c, copy, g2.st, p) else g2;
      if g2.v == Continue {
        var g3 := BackupStep(g2.c, copy, g2.st, p);
        assert RunSteps(s2, g2.c, copy, g2.st, p) == if g3.v == Continue then RunSteps(s3, g3.c, copy, g3.st, p) else g3;
        assert RunSteps(s3, g3.c, copy, g3.st, p) == FinalStep(g3.c, g3.st, p);
      }
    }
  }

  lemma SequenceKeeps(c: Cluster, copy: CR, st: Status, p: Pass, strict: bool)
    requires Inv(c, strict) && CalmPass(p, strict) && copy.deletedAt == c.cr.deletedAt
    requires var f := FactsOf(c.log);
             f.lifted == !copy.spec.deletionProtection && f.override == copy.override
    requires strict ==> SaysNo(copy.override)
    ensures var g := RunSteps(STEPS, c, copy, st, p); Inv(g.c, strict) && SamePass(c, g.c) && Over(g)
  {
    hide FactsOf, Inv, CalmPass, SaysNo, OverrideDisarms, RancherStep, BackupStep, FinalStep, RunSteps, Set, Find, Concludes;
    Unroll(c, copy, st, p);
    var g1 := ProtectionStep(c, copy, st);
    if g1.v == Continue {
      RancherKeeps(g1.c, copy, g1.st, p, strict);
      var g2 := RancherStep(g1.c, copy, g1.st, p);
      BackupKeeps(g2.c, copy, g2.st, p, strict);
      var g3 := BackupStep(g2.c, copy, g2.st, p);
      if g3.v == Continue {
        FinalKeeps(g3.c, g3.st, p, strict);
      }
    }
  }

  lemma StoreKeeps(c: Cluster, t: Turn, version: nat, st: Status, strict: bool)
    requires Inv(c, strict) && CalmAll(t.before, strict)
    ensures var (c', stored) := StoreStatus(c, t, version, st);
            && Inv(c', strict) && SamePass(c, c')
            && (stored ==> FactsOf(c'.log).concluded == Concludes(st))
            && FactsOf(c'.log).gone == FactsOf(c.log).gone
  {
    hide FactsOf, HappenAll, Justified, SaysNo, Concludes, Covered;
    EventsKeep(c, t.before, strict);
    var c1 := At(c, t);
    LoggingKeeps(c1.(cr := c1.cr.(status := st, version := version + 1)), StoredStatus(Concludes(st)), strict);
  }

  lemma ReleaseKeeps(c: Cluster, t: Turn, version: nat, strict: bool)
    requires Inv(c, strict) && CalmAll(t.before, strict) && FactsOf(c.log).gone && FactsOf(c.log).concluded
    ensures Inv(Release(c, t, version).0, strict) && SamePass(c, Release(c, t, version).0)
  {
    hide FactsOf, HappenAll, Justified, SaysNo, Covered;
    EventsKeep(c, t.before, strict);
    var c1 := At(c, t);
    LoggingKeeps(c1.(cr := c1.cr.(finalizer := false, version := version + 1)), Released, strict);
  }

  lemma PassKeeps(c: Cluster, p: Pass, strict: bool)
    requires Inv(c, strict) && CalmPass(p, strict) && c.cr.wellPlaced
    ensures Inv(Reconcile(c, p).0, strict) && Reconcile(c, p).0.cr.wellPlaced
  {
    hide FactsOf, Justified, SaysNo, RunSteps, StoreStatus, Release, HappenAll, Covered, CalmAll;
    EventsKeep(c, p.idle, strict);
    var c0 := HappenAll(c, p.idle);
    var copy := Copy(c0, p);
    if copy.finalizer {
      var first := Started(!copy.spec.deletionProtection, copy.override);
      LoggingKeeps(c0, first, strict);
      var begun := Logged(c0, first);
      SequenceKeeps(begun, copy, Opening(copy.status), p, strict);
      var g := RunSteps(STEPS, begun, copy, Opening(copy.status), p);
      hide Inv;
      if g.v != Dead {
        StoreKeeps(g.c, p.store, copy.version, g.st, strict);
        var (c1, stored) := StoreStatus(g.c, p.store, copy.version, g.st);
        if Alive(p.store) && stored && g.v == Continue {
          ReleaseKeeps(c1, p.release, copy.version + 1, strict);
        }
      }
    }
  }

  // ---- the demand for a backup ----

  /** With a namespace seen, or not readable: an annotation that says no, or none, lets the
      backup step go on only when the list it read covers the deletion; any other lets it go on. */
  lemma OverrideDecides(c: Cluster, copy: CR, st: Status, p: Pass)
    requires Alive(p.firstLook) && LookAtNamespace(c, p.firstLook).1 != SawAbsent
    ensures var g := BackupStep(c, copy, st, p);
            var backups := At(LookAtNamespace(c, p.firstLook).0, p.inspect).backups;
            && (SaysNo(copy.override) && g.v == Continue ==> p.inspect.fate == Served && Covered(backups, copy.deletedAt))
            && (!SaysNo(copy.override) ==> g.v == Continue && HasReason(g.st.conditions, BackupCompleted, BackupOverridden))
  {
    OverrideMeans(copy.override);
    var c1 := LookAtNamespace(c, p.firstLook).0;
    CompletedMeansCovered(At(c1, p.inspect).backups, copy.deletedAt);
    InspectedIs(c1, p.inspect, copy.deletedAt);
    hide LookAtNamespace, InspectBackups, OverrideDisarms, SaysNo, TriggerBackup, Set, Find, Pick, HappenAll;
  }

  lemma InspectedIs(c: Cluster, t: Turn, since: int)
    ensures var (d, seen) := InspectBackups(c, t, since);
            seen == if t.fate == Served then Some(Pick(At(c, t).backups, since)) else None
  {
    hide HappenAll, Pick;
  }

  // ---- a protected object ----

  /** The entry answers nothing outside the operator: a pass began, or a status was stored. */
  predicate Harmless(e: Entry) {
    e.Started? || e.StoredStatus?
  }

  /** A pass over a protected object makes no call but to store its status. It asks for no other
      look: lifting the protection is an edit, which brings the next pass. */
  lemma ProtectedIsLeftAlone(c: Cluster, p: Pass)
    requires var copy := Copy(HappenAll(c, p.idle), p); copy.finalizer && copy.wellPlaced && copy.spec.deletionProtection
    ensures var (d, v) := Reconcile(c, p);
            && c.log <= d.log && (forall i | |c.log| <= i < |d.log| :: Harmless(d.log[i]))
            && (v == Wait(0) || v == Error || v == Dead)
            && (v == Wait(0) ==> HasReason(d.cr.status.conditions, Ready, DeletionProtectionBlocked))
            && d.ns == At(HappenAll(c, p.idle), p.store).ns && d.backups == At(HappenAll(c, p.idle), p.store).backups
            && d.rancher == At(HappenAll(c, p.idle), p.store).rancher
            && d.cr.finalizer == At(HappenAll(c, p.idle), p.store).cr.finalizer
  {
    var c0 := HappenAll(c, p.idle);
    EventsKeepLog(c, p.idle);
    var g := ProtectedPass(c, p);
    EventsKeepLog(g.c, p.store.before);
    LogPlaysNoPart(c0, p.store.before, g.c.log);
    OnlyStores(g, Copy(c0, p).version, p);
    var d := Reconcile(c, p).0;
    hide *;
    assert d.ns == At(c0, p.store).ns && d.backups == At(c0, p.store).backups && d.rancher == At(c0, p.store).rancher
           && d.cr.finalizer == At(c0, p.store).cr.finalizer;
    OnlyHarmless(c0.log, g.c.log, d.log);
  }

  lemma OnlyHarmless(a: seq<Entry>, b: seq<Entry>, c: seq<Entry>)
    requires exists e :: Harmless(e) && b == a + [e]
    requires c == b || exists concluded :: c == b + [StoredStatus(concluded)]
    ensures a <= c && forall i | |a| <= i < |c| :: Harmless(c[i])
  {
  }

  lemma ProtectedPass(c: Cluster, p: Pass) returns (g: Go)
    requires var copy := Copy(HappenAll(c, p.idle), p); copy.finalizer && copy.wellPlaced && copy.spec.deletionProtection
    ensures var c0 := HappenAll(c, p.idle);
            && Reconcile(c, p) == Closing(g, Copy(c0, p).version, p) && g.v == Wait(0)
            && g.c == c0.(log := g.c.log) && (exists e :: Harmless(e) && g.c.log == c0.log + [e])
            && HasReason(g.st.conditions, Ready, DeletionProtectionBlocked)
  {
    var c0 := HappenAll(c, p.idle);
    var copy := Copy(c0, p);
    var first := Started(!copy.spec.deletionProtection, copy.override);
    var begun := Logged(c0, first);
    Unroll(begun, copy, Opening(copy.status), p);
    g := ProtectionStep(begun, copy, Opening(copy.status));
    assert Harmless(first);
    hide HappenAll, RunSteps, OverrideDisarms, Closing, Set, Find;
  }

  lemma OnlyStores(g: Go, version: nat, p: Pass)
    requires g.v == Wait(0)
    ensures var (d, v) := Closing(g, version, p);
            var a := At(g.c, p.store);
            && d.ns == a.ns && d.backups == a.backups && d.rancher == a.rancher && d.cr.finalizer == a.cr.finalizer
            && (d.log == a.log || d.log == a.log + [StoredStatus(Concludes(g.st))])
            && (v == Wait(0) || v == Error || v == Dead) && (v == Wait(0) ==> d.cr.status == g.st)
  {
    hide HappenAll, Concludes;
  }

  /** What happens by itself does not depend on the log. */
  lemma {:induction false} LogPlaysNoPart(c: Cluster, es: seq<Event>, log: seq<Entry>)
    ensures HappenAll(c.(log := log), es) == HappenAll(c, es).(log := log)
  {
    hide Happen;
    if es == [] {
    } else {
      LogPlaysNoPart(c, es[..|es| - 1], log);
      LogPlaysNoPartOnce(HappenAll(c, es[..|es| - 1]), es[|es| - 1], log);
    }
  }

  lemma LogPlaysNoPartOnce(c: Cluster, e: Event, log: seq<Entry>)
    ensures Happen(c.(log := log), e) == Happen(c, e).(log := log)
  {
    hide IsTerminalBackupPhase;
  }

  // ---- a misplaced object ----

  lemma {:induction false} PlaceStays(c: Cluster, es: seq<Event>)
    ensures HappenAll(c, es).cr.wellPlaced == c.cr.wellPlaced && HappenAll(c, es).log == c.log
  {
    EventsKeepLog(c, es);
    if es == [] {
    } else {
      PlaceStays(c, es[..|es| - 1]);
      hide IsTerminalBackupPhase;
    }
  }

  /** A pass over an object that does not live where its vcluster's should: it is let go, and
      nothing else is done, not even a look. */
  lemma MisplacedPass(c: Cluster, p: Pass)
    requires !c.cr.wellPlaced
    ensures var d := Reconcile(c, p).0;
            !d.cr.wellPlaced && (d.log == c.log || d.log == c.log + [Released])
  {
    PlaceStays(c, p.idle);
    var c0 := HappenAll(c, p.idle);
    PlaceStays(c0, p.release.before);
    hide HappenAll, RunSteps;
  }

  /** Over every run: a misplaced object never has anything destroyed, saved or unpaired. */
  lemma {:induction false} MisplacedIsOnlyReleased(c: Cluster, ps: seq<Pass>)
    requires !c.cr.wellPlaced && c.log == []
    ensures !Run(c, ps).cr.wellPlaced && forall e | e in Run(c, ps).log :: e == Released
  {
    if ps == [] {
    } else {
      hide Reconcile;
      MisplacedIsOnlyReleased(c, ps[..|ps| - 1]);
      MisplacedPass(Run(c, ps[..|ps| - 1]), ps[|ps| - 1]);
    }
  }

  /** A misplaced object is let go at once, by a pass whose write lands. */
  lemma MisplacedIsLetGo(c: Cluster, p: Pass)
    requires !c.cr.wellPlaced && c.cr.finalizer && p.idle == [] && p.stale == None && p.release == Turn([], Served)
    ensures !Reconcile(c, p).0.cr.finalizer && Reconcile(c, p).1 == Continue
  {
    hide RunSteps;
    assert HappenAll(c, []) == c;
  }

  // ---- whole runs ----

  lemma {:induction false} RunKeeps(c: Cluster, ps: seq<Pass>, strict: bool)
    requires Inv(c, strict) && c.cr.wellPlaced && forall p | p in ps :: CalmPass(p, strict)
    ensures Inv(Run(c, ps), strict) && Run(c, ps).cr.wellPlaced
  {
    hide Inv, CalmPass, Reconcile;
    if ps == [] {
    } else {
      RunKeeps(c, ps[..|ps| - 1], strict);
      PassKeeps(Run(c, ps[..|ps| - 1]), ps[|ps| - 1], strict);
    }
  }

  /** A cluster the deletion has not touched yet. */
  ghost predicate Fresh(c: Cluster) {
    && c.cr.wellPlaced && c.log == []
    && (!c.ns.Absent? ==> c.ns.id < c.nextId)
    && (c.ns.Terminating? ==> !c.ns.byOperator)
  }

  /** Each deletion in a justified log follows, in its own pass, the reads it rests on. */
  lemma {:induction false} EntriesAreAllowed(log: seq<Entry>, strict: bool, i: nat)
    requires Justified(log, strict) && i < |log|
    ensures Allowed(FactsOf(log[..i]), log[i], strict)
    ensures log[i].DeletedNamespace? ==> forall j | 0 <= j < i :: log[j] != log[i]
  {
    var n := |log| - 1;
    if i < n {
      EntriesAreAllowed(log[..n], strict, i);
      assert log[..n][..i] == log[..i];
    }
  }

  /** In every run, whatever the outside does: the namespace is deleted only after the
      protection was read lifted and the namespace's own was read, with a covering
      backup, an override or no namespace to save seen in that pass; no incarnation is
      deleted twice; and the object is let go only after its absence, or ten minutes of
      termination, were seen and the conclusion stored. */
  lemma DeletionIsJustified(c: Cluster, ps: seq<Pass>, i: nat)
    requires Fresh(c) && i < |Run(c, ps).log|
    ensures var log := Run(c, ps).log;
            && Allowed(FactsOf(log[..i]), log[i], false)
            && (log[i].DeletedNamespace? ==> forall j | 0 <= j < i :: log[j] != log[i])
  {
    RunKeeps(c, ps, false);
    hide Run;
    EntriesAreAllowed(Run(c, ps).log, false, i);
  }

  /** Without override and with nobody else creating the namespace or removing backups:
      every deletion had its backup, and a namespace the operator condemned has one still. */
  lemma NoDestructionWithoutNet(c: Cluster, ps: seq<Pass>, i: nat)
    requires Fresh(c) && SaysNo(c.cr.override) && forall p | p in ps :: CalmPass(p, true)
    ensures var r := Run(c, ps);
            && (i < |r.log| ==> Allowed(FactsOf(r.log[..i]), r.log[i], true))
            && (r.ns.Terminating? && r.ns.byOperator ==> Covered(r.backups, r.cr.deletedAt))
  {
    RunKeeps(c, ps, true);
    hide Run, OverrideDisarms, CalmPass;
    if i < |Run(c, ps).log| {
      EntriesAreAllowed(Run(c, ps).log, true, i);
    }
  }
}
