/**
 Admission against the cell's resource ceiling: what has been promised to the other
 vclusters, plus what this one asks for, must stay within it. Quantities are integers
 in one unit; reading one is a partial function.
 */
module Budget {
  import opened Wrappers
  import opened Text
  import opened Conditions
  import opened VClusters

  type Parse = string -> Option<int>

  datatype Dim = CPU | Memory | Storage

  const DIMS := [CPU, Memory, Storage]

  function Key(d: Dim): string {
    match d case CPU => "requests.cpu" case Memory => "requests.memory" case Storage => "requests.storage"
  }

  datatype Amounts<T> = Amounts(cpu: T, memory: T, storage: T) {
    function Get(d: Dim): T {
      match d case CPU => cpu case Memory => memory case Storage => storage
    }

    function With(d: Dim, v: T): Amounts<T> {
      match d case CPU => this.(cpu := v) case Memory => this.(memory := v) case Storage => this.(storage := v)
    }
  }

  /** A ResourceQuota; its status repeats the limits once the cluster has seen it. */
  datatype ResourceQuota = ResourceQuota(namespace: string, spec: Option<map<string, string>>, status: map<string, string>)

  function Hard(q: ResourceQuota): map<string, string> {
    if q.spec.Some? then q.spec.value else q.status
  }

  /** Whether a quota counts: a vcluster's namespace, other than the excluded one's. */
  predicate Counts(q: ResourceQuota, excluding: string) {
    HasPrefix(q.namespace, "vcluster-")
    && !(excluding != "" && q.namespace == HostNamespace(excluding))
  }

  predicate ReadableIn(q: ResourceQuota, d: Dim, parse: Parse) {
    Key(d) in Hard(q) ==> parse(Hard(q)[Key(d)]).Some?
  }

  function AmountIn(q: ResourceQuota, d: Dim, parse: Parse): int {
    if Key(d) in Hard(q) && parse(Hard(q)[Key(d)]).Some? then parse(Hard(q)[Key(d)]).value else 0
  }

  /** What the counted quotas add up to in one dimension. */
  function Sum(list: seq<ResourceQuota>, excluding: string, d: Dim, parse: Parse): int {
    if list == [] then 0
    else
      var n := |list| - 1;
      Sum(list[..n], excluding, d, parse) + if Counts(list[n], excluding) then AmountIn(list[n], d, parse) else 0
  }

  ghost predicate Readable(list: seq<ResourceQuota>, excluding: string, parse: Parse) {
    forall i, d | 0 <= i < |list| && Counts(list[i], excluding) :: ReadableIn(list[i], d, parse)
  }

  /** Adds up what the cell has handed out; no result when a quota is unreadable,
      which counting for zero would underestimate. */
  method SumVClusterQuotaHardLimits(list: seq<ResourceQuota>, excluding: string, parse: Parse)
    returns (r: Option<Amounts<int>>)
    ensures r.Some? <==> Readable(list, excluding, parse)
    ensures r.Some? ==> forall d: Dim :: r.value.Get(d) == Sum(list, excluding, d, parse)
  {
    var skip := "";
    if excluding != "" {
      skip := HostNamespace(excluding);
    }
    var total := Amounts(0, 0, 0);
    for i := 0 to |list|
      invariant Readable(list[..i], excluding, parse)
      invariant forall d: Dim :: total.Get(d) == Sum(list[..i], excluding, d, parse)
    {
      var rq := list[i];
      OneMore(list, i, excluding, parse);
      hide Sum, Readable, Counts;
      if !HasPrefix(rq.namespace, "vcluster-") || rq.namespace == skip {
        assert !Counts(rq, excluding) by {
          NotCounted(rq, excluding);
        }
        continue;
      }
      assert Counts(rq, excluding) by {
        NotCounted(rq, excluding);
      }
      var next := AddHard(total, rq, parse);
      if next == None {
        Unreadable(list, i, excluding, parse);
        return None;
      }
      total := next.value;
    }
    assert list[..|list|] == list;
    return Some(total);
  }

  lemma NotCounted(q: ResourceQuota, excluding: string)
    ensures Counts(q, excluding) <==>
            HasPrefix(q.namespace, "vcluster-") && q.namespace != (if excluding != "" then HostNamespace(excluding) else "")
  {
  }

  lemma OneMore(list: seq<ResourceQuota>, i: nat, excluding: string, parse: Parse)
    requires i < |list|
    ensures Readable(list[..i + 1], excluding, parse) <==>
            Readable(list[..i], excluding, parse)
            && (Counts(list[i], excluding) ==> forall d: Dim :: ReadableIn(list[i], d, parse))
    ensures forall d: Dim :: Sum(list[..i + 1], excluding, d, parse) ==
                             Sum(list[..i], excluding, d, parse)
                             + if Counts(list[i], excluding) then AmountIn(list[i], d, parse) else 0
  {
    hide Counts, ReadableIn, AmountIn;
    var front, whole := list[..i], list[..i + 1];
    assert whole[..i] == front && whole[i] == list[i];
    assert forall j | 0 <= j < i :: whole[j] == front[j];
  }

  lemma Unreadable(list: seq<ResourceQuota>, i: nat, excluding: string, parse: Parse)
    requires i < |list| && Counts(list[i], excluding) && exists d: Dim :: !ReadableIn(list[i], d, parse)
    ensures !Readable(list, excluding, parse)
  {
    hide Counts, ReadableIn;
  }

  method AddHard(total: Amounts<int>, rq: ResourceQuota, parse: Parse) returns (r: Option<Amounts<int>>)
    ensures r.Some? <==> forall d: Dim :: ReadableIn(rq, d, parse)
    ensures r.Some? ==> forall d: Dim :: r.value.Get(d) == total.Get(d) + AmountIn(rq, d, parse)
  {
    var t := total;
    var hard := Hard(rq);
    for k := 0 to 3
      invariant forall j | 0 <= j < k :: ReadableIn(rq, DIMS[j], parse)
      invariant forall j | 0 <= j < 3 :: t.Get(DIMS[j]) ==
                                         total.Get(DIMS[j]) + if j < k then AmountIn(rq, DIMS[j], parse) else 0
    {
      if Key(DIMS[k]) !in hard {
        continue;
      }
      var q := parse(hard[Key(DIMS[k])]);
      if q == None {
        assert !ReadableIn(rq, DIMS[k], parse);
        return None;
      }
      t := t.With(DIMS[k], t.Get(DIMS[k]) + q.value);
    }
    forall d: Dim
      ensures ReadableIn(rq, d, parse) && t.Get(d) == total.Get(d) + AmountIn(rq, d, parse)
    {
      hide ReadableIn, AmountIn;
      EveryDimIsListed(d);
    }
    return Some(t);
  }

  lemma EveryDimIsListed(d: Dim)
    ensures exists j | 0 <= j < 3 :: DIMS[j] == d
  {
    assert DIMS[0] == CPU && DIMS[1] == Memory && DIMS[2] == Storage;
  }

  // ---- the check ----

  /** What will really be written for a vcluster: its own quantities, or the
      generator's defaults. */
  function EffectiveQuotas(spec: Spec, defaults: Amounts<string>): (Amounts<string>, bool) {
    match spec.quotas
    case None => (defaults, true)
    case Some(q) =>
      (Amounts(if q.cpu == "" then defaults.cpu else q.cpu,
               if q.memory == "" then defaults.memory else q.memory,
               if q.storage == "" then defaults.storage else q.storage),
       q.enabled)
  }

  /** The quantities a vcluster is charged for; none when quotas are off or empty. */
  function Charged(spec: Spec, defaults: Amounts<string>): Option<Amounts<string>> {
    var (q, enabled) := EffectiveQuotas(spec, defaults);
    if enabled && (q.cpu != "" || q.memory != "" || q.storage != "") then Some(q) else None
  }

  datatype Fit = Fits | Exceeds | Illegible

  function ExceedsBudget(asked: string, used: int, limit: string, parse: Parse): Fit {
    if limit == "" || asked == "" then Fits
    else if parse(asked) == None || parse(limit) == None then Illegible
    else if used + parse(asked).value > parse(limit).value then Exceeds
    else Fits
  }

  datatype Verdict = NotWired | Failure | Admitted(reason: Reason) | Refused(reason: Reason)

  /** What the check reads: `used` is none when listing or reading the quotas failed,
      `defaults` is none without a generator. */
  datatype BudgetInputs = BudgetInputs(
    wired: bool, defaults: Option<Amounts<string>>, limits: Amounts<string>, used: Option<Amounts<int>>)

  function FirstMisfit(asked: Amounts<string>, used: Amounts<int>, limits: Amounts<string>, dims: seq<Dim>, parse: Parse): Fit {
    if dims == [] then Fits
    else
      var fit := ExceedsBudget(asked.Get(dims[0]), used.Get(dims[0]), limits.Get(dims[0]), parse);
      if fit == Fits then FirstMisfit(asked, used, limits, dims[1..], parse) else fit
  }

  function Checked(spec: Spec, b: BudgetInputs, parse: Parse): Verdict {
    if !b.wired then NotWired
    else if b.defaults == None then Failure
    else
      match Charged(spec, b.defaults.value)
      case None => Admitted(NoQuotaRequested)
      case Some(asked) =>
        if b.limits == Amounts("", "", "") then Refused(NoBudgetConfigured)
        else if b.used == None then Failure
        else
          match FirstMisfit(asked, b.used.value, b.limits, DIMS, parse)
          case Illegible => Refused(InvalidQuantity)
          case Exceeds => Refused(BudgetExceeded)
          case Fits => Admitted(WithinBudget)
  }

  /** What the verdict writes in the status. */
  function Recorded(st: Status, v: Verdict, now: int): Status {
    match v
    case NotWired => st
    case Failure => st
    case Admitted(reason) => WithCond(st, BudgetOK, ConditionTrue, reason, now)
    case Refused(reason) => WithCond(st, BudgetOK, ConditionFalse, reason, now).(phase := PhaseFailed)
  }

  method CheckResourceBudget(vc: VCluster, b: BudgetInputs, parse: Parse, now: int) returns (v: Verdict)
    modifies vc`conditions, vc`phase
    ensures v == Checked(vc.spec, b, parse)
    ensures vc.View() == Recorded(old(vc.View()), v, now)
  {
    hide Set, Find, ExceedsBudget;
    if !b.wired {
      return NotWired;
    }
    if b.defaults == None {
      return Failure;
    }
    var charged := Charged(vc.spec, b.defaults.value);
    if charged == None {
      vc.SetCond(BudgetOK, ConditionTrue, NoQuotaRequested, now);
      return Admitted(NoQuotaRequested);
    }
    if b.limits == Amounts("", "", "") {
      vc.SetCond(BudgetOK, ConditionFalse, NoBudgetConfigured, now);
      vc.phase := PhaseFailed;
      return Refused(NoBudgetConfigured);
    }
    if b.used == None {
      return Failure;
    }
    for k := 0 to 3
      invariant vc.View() == old(vc.View())
      invariant FirstMisfit(charged.value, b.used.value, b.limits, DIMS, parse) ==
                FirstMisfit(charged.value, b.used.value, b.limits, DIMS[k..], parse)
    {
      assert DIMS[k..][1..] == DIMS[k + 1..];
      var d := DIMS[k];
      var fit := ExceedsBudget(charged.value.Get(d), b.used.value.Get(d), b.limits.Get(d), parse);
      if fit == Illegible {
        vc.SetCond(BudgetOK, ConditionFalse, InvalidQuantity, now);
        vc.phase := PhaseFailed;
        return Refused(InvalidQuantity);
      }
      if fit == Exceeds {
        vc.SetCond(BudgetOK, ConditionFalse, BudgetExceeded, now);
        vc.phase := PhaseFailed;
        return Refused(BudgetExceeded);
      }
    }
    assert DIMS[3..] == [];
    vc.SetCond(BudgetOK, ConditionTrue, WithinBudget, now);
    return Admitted(WithinBudget);
  }

  /** Uncapped, not asked for, or readable and with room for what is asked. */
  predicate HasRoom(asked: Amounts<string>, used: Amounts<int>, limits: Amounts<string>, d: Dim, parse: Parse) {
    || limits.Get(d) == "" || asked.Get(d) == ""
    || (parse(asked.Get(d)).Some? && parse(limits.Get(d)).Some?
        && used.Get(d) + parse(asked.Get(d)).value <= parse(limits.Get(d)).value)
  }

  /** A charged request passes exactly when a ceiling is set and every dimension that
      is both capped and asked for is readable and has room. */
  lemma WithinBudgetMeans(asked: Amounts<string>, used: Amounts<int>, limits: Amounts<string>, parse: Parse)
    ensures FirstMisfit(asked, used, limits, DIMS, parse) == Fits <==>
            forall d: Dim :: HasRoom(asked, used, limits, d, parse)
  {
    AllFit(asked, used, limits, parse);
    hide ExceedsBudget, HasRoom, FirstMisfit;
    forall d: Dim
      ensures HasRoom(asked, used, limits, d, parse) <==>
              ExceedsBudget(asked.Get(d), used.Get(d), limits.Get(d), parse) == Fits
    {
      FitMeans(asked, used, limits, d, parse);
    }
  }

  lemma AllFit(asked: Amounts<string>, used: Amounts<int>, limits: Amounts<string>, parse: Parse)
    ensures FirstMisfit(asked, used, limits, DIMS, parse) == Fits <==>
            forall d: Dim :: ExceedsBudget(asked.Get(d), used.Get(d), limits.Get(d), parse) == Fits
  {
    hide ExceedsBudget;
    var two, one := DIMS[1..], DIMS[2..];
    assert DIMS[0] == CPU && two[0] == Memory && two[1..] == one && one[0] == Storage && one[1..] == [];
    assert FirstMisfit(asked, used, limits, one, parse) ==
           ExceedsBudget(asked.Get(Storage), used.Get(Storage), limits.Get(Storage), parse);
    assert FirstMisfit(asked, used, limits, two, parse) ==
           var fit := ExceedsBudget(asked.Get(Memory), used.Get(Memory), limits.Get(Memory), parse);
           if fit == Fits then FirstMisfit(asked, used, limits, one, parse) else fit;
    if FirstMisfit(asked, used, limits, DIMS, parse) == Fits {
      forall d: Dim
        ensures ExceedsBudget(asked.Get(d), used.Get(d), limits.Get(d), parse) == Fits
      {
        match d case CPU => case Memory => case Storage =>
      }
    }
  }

  lemma FitMeans(asked: Amounts<string>, used: Amounts<int>, limits: Amounts<string>, d: Dim, parse: Parse)
    ensures ExceedsBudget(asked.Get(d), used.Get(d), limits.Get(d), parse) == Fits <==> HasRoom(asked, used, limits, d, parse)
  {
  }

  // ---- safety over runs of admissions ----

  /** One quantity of a quotas block. */
  function Quantity(q: Quotas, d: Dim): string {
    match d case CPU => q.cpu case Memory => q.memory case Storage => q.storage
  }

  /** What provisioning writes for a vcluster in one dimension, nothing when empty: without a
      quotas block the defaults, with a disabled one nothing, and else the block's own quantity,
      a missing one being the default. */
  function ToWrite(spec: Spec, defaults: Amounts<string>, d: Dim): string {
    match spec.quotas
    case None => defaults.Get(d)
    case Some(q) =>
      if !q.enabled then "" else if Quantity(q, d) == "" then defaults.Get(d) else Quantity(q, d)
  }

  function AllToWrite(spec: Spec, defaults: Amounts<string>): Amounts<string> {
    Amounts(ToWrite(spec, defaults, CPU), ToWrite(spec, defaults, Memory), ToWrite(spec, defaults, Storage))
  }

  function HardOf(q: Amounts<string>): map<string, string> {
    map d: Dim | d in DIMS && q.Get(d) != "" :: Key(d) := q.Get(d)
  }

  /** The quota object quantities are written in; none when there are none. */
  function Written(name: string, q: Amounts<string>): seq<ResourceQuota> {
    if q == Amounts("", "", "") then [] else [ResourceQuota(HostNamespace(name), Some(HardOf(q)), map[])]
  }

  /** A vcluster is charged exactly for what will be written, dimension by dimension, and not
      charged exactly when nothing will be. */
  lemma ChargedIsWritten(spec: Spec, defaults: Amounts<string>)
    ensures match Charged(spec, defaults)
            case None => forall d: Dim :: ToWrite(spec, defaults, d) == ""
            case Some(q) => (forall d: Dim :: q.Get(d) == ToWrite(spec, defaults, d))
                            && exists d: Dim :: ToWrite(spec, defaults, d) != ""
    ensures Charged(spec, defaults).Some? <==> AllToWrite(spec, defaults) != Amounts("", "", "")
    ensures Charged(spec, defaults).Some? ==> Charged(spec, defaults).value == AllToWrite(spec, defaults)
  {
    forall d: Dim
      ensures AllToWrite(spec, defaults).Get(d) == ToWrite(spec, defaults, d)
    {
      match d case CPU => case Memory => case Storage =>
    }
    match Charged(spec, defaults)
    case None =>
    case Some(q) => assert q == AllToWrite(spec, defaults);
  }

  function Without(list: seq<ResourceQuota>, name: string): seq<ResourceQuota> {
    if list == [] then []
    else
      var n := |list| - 1;
      Without(list[..n], name) + if list[n].namespace == HostNamespace(name) then [] else [list[n]]
  }

  /** The cell after the admitted quota has replaced the vcluster's old ones. */
  function Replaced(list: seq<ResourceQuota>, name: string, q: Amounts<string>): seq<ResourceQuota> {
    Without(list, name) + Written(name, q)
  }

  datatype Request = Request(name: string, spec: Spec)

  /** What summing the quotas answers. */
  ghost function Used(list: seq<ResourceQuota>, excluding: string, parse: Parse): Option<Amounts<int>> {
    if Readable(list, excluding, parse) then
      Some(Amounts(Sum(list, excluding, CPU, parse), Sum(list, excluding, Memory, parse), Sum(list, excluding, Storage, parse)))
    else None
  }

  ghost function VerdictFor(list: seq<ResourceQuota>, r: Request, defaults: Amounts<string>, limits: Amounts<string>, parse: Parse)
    : Verdict
  {
    Checked(r.spec, BudgetInputs(true, Some(defaults), limits, Used(list, r.name, parse)), parse)
  }

  ghost function Admit(list: seq<ResourceQuota>, r: Request, defaults: Amounts<string>, limits: Amounts<string>, parse: Parse)
    : seq<ResourceQuota>
  {
    if VerdictFor(list, r, defaults, limits, parse).Admitted? then Replaced(list, r.name, AllToWrite(r.spec, defaults)) else list
  }

  ghost function AdmitAll(list: seq<ResourceQuota>, rs: seq<Request>, defaults: Amounts<string>, limits: Amounts<string>, parse: Parse)
    : seq<ResourceQuota>
  {
    if rs == [] then list
    else Admit(AdmitAll(list, rs[..|rs| - 1], defaults, limits, parse), rs[|rs| - 1], defaults, limits, parse)
  }

  /** No quantity is negative. */
  ghost predicate NonNegative(parse: Parse) {
    forall s :: parse(s).Some? ==> parse(s).value >= 0
  }

  /** A capped dimension is within its ceiling, over all vcluster namespaces. */
  predicate DimWithin(list: seq<ResourceQuota>, limits: Amounts<string>, d: Dim, parse: Parse) {
    limits.Get(d) != "" && parse(limits.Get(d)).Some? ==> Sum(list, "", d, parse) <= parse(limits.Get(d)).value
  }

  ghost predicate WithinCeiling(list: seq<ResourceQuota>, limits: Amounts<string>, parse: Parse) {
    forall d: Dim :: DimWithin(list, limits, d, parse)
  }

  /** What the vcluster's own quotas add up to. */
  function Own(list: seq<ResourceQuota>, name: string, d: Dim, parse: Parse): int {
    if list == [] then 0
    else
      var n := |list| - 1;
      Own(list[..n], name, d, parse) + if list[n].namespace == HostNamespace(name) then AmountIn(list[n], d, parse) else 0
  }

  lemma HostPrefix(name: string)
    ensures HasPrefix(HostNamespace(name), "vcluster-")
    ensures HostNamespace(name)[9..] == name
  {
  }

  lemma CountsMeans(q: ResourceQuota, name: string)
    requires name != ""
    ensures Counts(q, name) ==> q.namespace != HostNamespace(name)
    ensures q.namespace != HostNamespace(name) ==> Counts(q, name) == Counts(q, "")
    ensures q.namespace == HostNamespace(name) ==> Counts(q, "")
  {
    HostPrefix(name);
  }

  lemma {:induction false} OwnPlusOthers(list: seq<ResourceQuota>, name: string, d: Dim, parse: Parse)
    requires name != ""
    ensures Sum(list, "", d, parse) == Sum(list, name, d, parse) + Own(list, name, d, parse)
    ensures NonNegative(parse) ==> Own(list, name, d, parse) >= 0
  {
    hide HostNamespace, Key, Counts;
    if list == [] {
    } else {
      OwnPlusOthers(list[..|list| - 1], name, d, parse);
      CountsMeans(list[|list| - 1], name);
    }
  }

  lemma SumSnoc(list: seq<ResourceQuota>, q: ResourceQuota, excluding: string, parse: Parse)
    ensures forall d: Dim :: Sum(list + [q], excluding, d, parse) ==
                             Sum(list, excluding, d, parse) + if Counts(q, excluding) then AmountIn(q, d, parse) else 0
    ensures Readable(list + [q], excluding, parse) <==>
            Readable(list, excluding, parse) && (Counts(q, excluding) ==> forall d: Dim :: ReadableIn(q, d, parse))
  {
    var whole := list + [q];
    OneMore(whole, |list|, excluding, parse);
    assert whole[..|list| + 1] == whole && whole[..|list|] == list;
  }

  /** A vcluster's own quotas play no part in what is summed for it. */
  lemma {:induction false} WithoutKeepsOthers(list: seq<ResourceQuota>, name: string, d: Dim, parse: Parse)
    requires name != ""
    ensures Sum(Without(list, name), name, d, parse) == Sum(list, name, d, parse)
    ensures Readable(Without(list, name), name, parse) <==> Readable(list, name, parse)
  {
    hide HostNamespace, Counts, AmountIn, ReadableIn, Sum, Readable;
    if list == [] {
    } else {
      var n := |list| - 1;
      WithoutKeepsOthers(list[..n], name, d, parse);
      assert Without(list, name) == Without(list[..n], name) + if list[n].namespace == HostNamespace(name) then [] else [list[n]];
      assert list == list[..n] + [list[n]];
      OneMoreWithout(list[..n], Without(list[..n], name), list[n], name, d, parse);
    }
  }

  lemma OneMoreWithout(front: seq<ResourceQuota>, kept: seq<ResourceQuota>, q: ResourceQuota, name: string, d: Dim, parse: Parse)
    requires name != ""
    requires Sum(kept, name, d, parse) == Sum(front, name, d, parse)
    requires Readable(kept, name, parse) <==> Readable(front, name, parse)
    ensures var w := kept + if q.namespace == HostNamespace(name) then [] else [q];
            && Sum(w, name, d, parse) == Sum(front + [q], name, d, parse)
            && (Readable(w, name, parse) <==> Readable(front + [q], name, parse))
  {
    hide HostNamespace, AmountIn, Counts, Sum, Readable, ReadableIn;
    SumSnoc(front, q, name, parse);
    SumSnoc(kept, q, name, parse);
    CountsMeans(q, name);
    assert kept + [] == kept;
  }

  lemma {:induction false} WithoutHasNoOwn(list: seq<ResourceQuota>, name: string, d: Dim, parse: Parse)
    ensures Own(Without(list, name), name, d, parse) == 0
  {
    hide HostNamespace, AmountIn;
    if list == [] {
    } else {
      var n := |list| - 1;
      WithoutHasNoOwn(list[..n], name, d, parse);
      var kept := Without(list[..n], name);
      if list[n].namespace != HostNamespace(name) {
        var w := kept + [list[n]];
        assert w[..|w| - 1] == kept;
      } else {
        assert kept + [] == kept;
      }
    }
  }

  lemma KeyInjective(a: Dim, b: Dim)
    requires Key(a) == Key(b)
    ensures a == b
  {
    assert |Key(CPU)| == 12 && |Key(Memory)| == 15 && |Key(Storage)| == 16;
  }

  lemma HardOfHas(q: Amounts<string>, d: Dim)
    ensures Key(d) in HardOf(q) <==> q.Get(d) != ""
    ensures q.Get(d) != "" ==> HardOf(q)[Key(d)] == q.Get(d)
  {
    hide Key;
    EveryDimIsListed(d);
    forall e: Dim | Key(e) == Key(d)
      ensures e == d
    {
      KeyInjective(e, d);
    }
  }

  /** What written quantities add up to in one dimension. */
  function AmountOf(q: Amounts<string>, d: Dim, parse: Parse): int {
    if q.Get(d) != "" && parse(q.Get(d)).Some? then parse(q.Get(d)).value else 0
  }

  lemma WrittenAmount(name: string, q: Amounts<string>, d: Dim, parse: Parse)
    requires q != Amounts("", "", "")
    ensures AmountIn(Written(name, q)[0], d, parse) == AmountOf(q, d, parse)
  {
    HardOfHas(q, d);
    hide Key, HardOf, HostNamespace;
  }

  lemma ReplacedSum(list: seq<ResourceQuota>, name: string, q: Amounts<string>, d: Dim, parse: Parse)
    requires name != ""
    ensures Sum(Replaced(list, name, q), "", d, parse) == Sum(list, name, d, parse) + AmountOf(q, d, parse)
  {
    hide HostNamespace, AmountIn, Without, Counts, Sum, HardOf;
    WithoutKeepsOthers(list, name, d, parse);
    WithoutHasNoOwn(list, name, d, parse);
    OwnPlusOthers(Without(list, name), name, d, parse);
    var w := Without(list, name);
    if q == Amounts("", "", "") {
      assert w + [] == w;
    } else {
      WrittenAmount(name, q, d, parse);
      var r := Written(name, q)[0];
      CountsMeans(r, name);
      SumSnoc(w, r, "", parse);
    }
  }

  /** Two cells that differ only in the vcluster's own quotas give it the same verdict. */
  lemma OwnQuotaIsNeutral(list: seq<ResourceQuota>, other: seq<ResourceQuota>, r: Request,
                          defaults: Amounts<string>, limits: Amounts<string>, parse: Parse)
    requires r.name != "" && Without(list, r.name) == Without(other, r.name)
    ensures VerdictFor(list, r, defaults, limits, parse) == VerdictFor(other, r, defaults, limits, parse)
  {
    hide Without, Sum, Readable, Checked;
    forall d: Dim
      ensures Sum(list, r.name, d, parse) == Sum(other, r.name, d, parse)
      ensures Readable(list, r.name, parse) <==> Readable(other, r.name, parse)
    {
      WithoutKeepsOthers(list, r.name, d, parse);
      WithoutKeepsOthers(other, r.name, d, parse);
    }
    assert Sum(list, r.name, CPU, parse) == Sum(other, r.name, CPU, parse);
  }

  /** Room for what will be written, next to what the others hold: uncapped, nothing to write,
      or readable and within the ceiling. */
  ghost predicate Fitting(list: seq<ResourceQuota>, r: Request, defaults: Amounts<string>, limits: Amounts<string>,
                          parse: Parse, d: Dim) {
    var w := ToWrite(r.spec, defaults, d);
    || limits.Get(d) == "" || w == ""
    || (parse(w).Some? && parse(limits.Get(d)).Some?
        && Sum(list, r.name, d, parse) + parse(w).value <= parse(limits.Get(d)).value)
  }

  /** A request is admitted exactly when nothing will be written for it; or some ceiling is set,
      the others' quotas can be read, and there is room in every dimension for what will be. */
  lemma AdmittedExactly(list: seq<ResourceQuota>, r: Request, defaults: Amounts<string>, limits: Amounts<string>, parse: Parse)
    ensures VerdictFor(list, r, defaults, limits, parse).Admitted? <==>
              || (forall d: Dim :: ToWrite(r.spec, defaults, d) == "")
              || ((exists d: Dim :: limits.Get(d) != "") && Readable(list, r.name, parse)
                  && forall d: Dim :: Fitting(list, r, defaults, limits, parse, d))
  {
    ChargedIsWritten(r.spec, defaults);
    SomeLimit(limits);
    hide Sum, Readable, FirstMisfit, Charged, ToWrite, AllToWrite;
    match Charged(r.spec, defaults)
    case None =>
    case Some(q) =>
      if Readable(list, r.name, parse) {
        var used := Used(list, r.name, parse).value;
        WithinBudgetMeans(q, used, limits, parse);
        forall d: Dim
          ensures HasRoom(q, used, limits, d, parse) <==> Fitting(list, r, defaults, limits, parse, d)
        {
          assert used.Get(d) == Sum(list, r.name, d, parse);
        }
      }
  }

  lemma SomeLimit(limits: Amounts<string>)
    ensures limits == Amounts("", "", "") <==> forall d: Dim :: limits.Get(d) == ""
  {
    if forall d: Dim :: limits.Get(d) == "" {
      assert limits.Get(CPU) == "" && limits.Get(Memory) == "" && limits.Get(Storage) == "";
    }
  }

  /** An admitted request has room for what it is written with, next to what the others hold. */
  lemma AdmittedHasRoom(list: seq<ResourceQuota>, r: Request, defaults: Amounts<string>, limits: Amounts<string>,
                        parse: Parse, d: Dim)
    requires VerdictFor(list, r, defaults, limits, parse).Admitted?
    requires limits.Get(d) != "" && parse(limits.Get(d)).Some?
    ensures var amount := AmountOf(AllToWrite(r.spec, defaults), d, parse);
            amount > 0 ==> Sum(list, r.name, d, parse) + amount <= parse(limits.Get(d)).value
  {
    AdmittedExactly(list, r, defaults, limits, parse);
    assert AllToWrite(r.spec, defaults).Get(d) == ToWrite(r.spec, defaults, d);
    assert Fitting(list, r, defaults, limits, parse, d) || ToWrite(r.spec, defaults, d) == "";
    hide Sum, Readable, VerdictFor, ToWrite, AllToWrite;
  }

  lemma AdmitKeepsDim(list: seq<ResourceQuota>, r: Request, defaults: Amounts<string>, limits: Amounts<string>,
                      parse: Parse, d: Dim)
    requires r.name != "" && NonNegative(parse) && DimWithin(list, limits, d, parse)
    ensures DimWithin(Admit(list, r, defaults, limits, parse), limits, d, parse)
  {
    hide Sum, NonNegative, Replaced, VerdictFor, AmountOf, AllToWrite;
    if limits.Get(d) != "" && parse(limits.Get(d)).Some? && VerdictFor(list, r, defaults, limits, parse).Admitted? {
      OwnPlusOthers(list, r.name, d, parse);
      ReplacedSum(list, r.name, AllToWrite(r.spec, defaults), d, parse);
      AdmittedHasRoom(list, r, defaults, limits, parse, d);
    }
  }

  /** Whatever is asked for and in whatever order, the ceiling holds, as long as each
      admitted quota replaces the vcluster's old one before the next check. */
  lemma {:induction false} CeilingHolds(list: seq<ResourceQuota>, rs: seq<Request>, defaults: Amounts<string>,
                                        limits: Amounts<string>, parse: Parse)
    requires NonNegative(parse) && WithinCeiling(list, limits, parse)
    requires forall r | r in rs :: r.name != ""
    ensures WithinCeiling(AdmitAll(list, rs, defaults, limits, parse), limits, parse)
  {
    hide DimWithin, NonNegative, Admit;
    if rs == [] {
    } else {
      CeilingHolds(list, rs[..|rs| - 1], defaults, limits, parse);
      var before := AdmitAll(list, rs[..|rs| - 1], defaults, limits, parse);
      forall d: Dim
        ensures DimWithin(AdmitAll(list, rs, defaults, limits, parse), limits, d, parse)
      {
        AdmitKeepsDim(before, rs[|rs| - 1], defaults, limits, parse, d);
      }
    }
  }

  /** What the vclusters other than these two hold. */
  function HeldByOthers(list: seq<ResourceQuota>, a: string, b: string, d: Dim, parse: Parse): int {
    Sum(list, "", d, parse) - Own(list, a, d, parse) - Own(list, b, d, parse)
  }

  /** Two vclusters admitted on the same reading: each alone keeps the ceiling, and both together
      keep it exactly when what the others hold leaves room for both charges. */
  lemma ConcurrentChecksFitExactly(list: seq<ResourceQuota>, a: Request, b: Request, defaults: Amounts<string>,
                                   limits: Amounts<string>, parse: Parse, d: Dim)
    requires a.name != b.name && a.name != "" && b.name != "" && NonNegative(parse)
    requires limits.Get(d) != "" && parse(limits.Get(d)).Some? && DimWithin(list, limits, d, parse)
    requires VerdictFor(list, a, defaults, limits, parse).Admitted? && VerdictFor(list, b, defaults, limits, parse).Admitted?
    ensures var one := Admit(list, a, defaults, limits, parse);
            var both := Replaced(one, b.name, AllToWrite(b.spec, defaults));
            && DimWithin(one, limits, d, parse) && DimWithin(Admit(list, b, defaults, limits, parse), limits, d, parse)
            && (DimWithin(both, limits, d, parse) <==>
                  HeldByOthers(list, a.name, b.name, d, parse) + AmountOf(AllToWrite(a.spec, defaults), d, parse)
                  + AmountOf(AllToWrite(b.spec, defaults), d, parse) <= parse(limits.Get(d)).value)
  {
    AdmitKeepsDim(list, a, defaults, limits, parse, d);
    AdmitKeepsDim(list, b, defaults, limits, parse, d);
    hide Sum, AllToWrite, Without, AmountOf, Own, VerdictFor, Replaced, NonNegative;
    var asked := AllToWrite(a.spec, defaults);
    var one := Replaced(list, a.name, asked);
    OwnPlusOthers(list, a.name, d, parse);
    ReplacedSum(list, a.name, asked, d, parse);
    ReplacedSum(one, b.name, AllToWrite(b.spec, defaults), d, parse);
    OwnPlusOthers(one, b.name, d, parse);
    OwnUntouched(list, a.name, b.name, asked, d, parse);
  }

  /** Replacing one vcluster's quotas leaves another's alone. */
  lemma OwnUntouched(list: seq<ResourceQuota>, a: string, b: string, asked: Amounts<string>, d: Dim, parse: Parse)
    requires a != b
    ensures Own(Replaced(list, a, asked), b, d, parse) == Own(list, b, d, parse)
  {
    WithoutKeepsOwn(list, a, b, d, parse);
    HostPrefix(a);
    HostPrefix(b);
    hide HostNamespace, AmountIn, HardOf, Without;
    var kept := Without(list, a);
    if asked != Amounts("", "", "") {
      var r := Replaced(list, a, asked);
      assert r[..|r| - 1] == kept;
    } else {
      assert kept + [] == kept;
    }
  }

  lemma {:induction false} WithoutKeepsOwn(list: seq<ResourceQuota>, a: string, b: string, d: Dim, parse: Parse)
    requires a != b
    ensures Own(Without(list, a), b, d, parse) == Own(list, b, d, parse)
  {
    HostPrefix(a);
    HostPrefix(b);
    hide HostNamespace, AmountIn;
    if list == [] {
    } else {
      var n := |list| - 1;
      WithoutKeepsOwn(list[..n], a, b, d, parse);
      var kept := Without(list[..n], a);
      assert list[n].namespace != HostNamespace(a) ==> (kept + [list[n]])[..|kept|] == kept;
      assert kept + [] == kept;
    }
  }

  /** Six and six do not fit under ten, though each alone does: an empty cell, two requests. */
  lemma ConcurrentChecksCanExceed()
    returns (a: Request, b: Request, defaults: Amounts<string>, limits: Amounts<string>, parse: Parse)
    ensures a.name != b.name && DimWithin([], limits, CPU, parse)
    ensures VerdictFor([], a, defaults, limits, parse).Admitted? && VerdictFor([], b, defaults, limits, parse).Admitted?
    ensures !DimWithin(Replaced(Admit([], a, defaults, limits, parse), b.name, AllToWrite(b.spec, defaults)), limits, CPU, parse)
  {
    var spec := Spec(false, false, false, false, Some(Quotas(true, "6", "", "")));
    a, b := Request("a", spec), Request("b", spec);
    defaults, limits := Amounts("", "", ""), Amounts("10", "", "");
    parse := s => if s == "6" then Some(6) else if s == "10" then Some(10) else None;
    assert "6" != "10" by {
      assert |"6"| != |"10"|;
    }
    var asked := Charged(spec, defaults).value;
    assert asked == Amounts("6", "", "");
    WithinBudgetMeans(asked, Amounts(0, 0, 0), limits, parse);
    assert Used([], "a", parse) == Some(Amounts(0, 0, 0)) && Used([], "b", parse) == Some(Amounts(0, 0, 0));
    hide FirstMisfit, Sum, Own, Without, Replaced;
    assert DimWithin([], limits, CPU, parse) by {
      EmptySum(parse);
    }
    EmptySum(parse);
    assert AmountOf(AllToWrite(spec, defaults), CPU, parse) == 6;
    ConcurrentChecksFitExactly([], a, b, defaults, limits, parse, CPU);
  }

  lemma EmptySum(parse: Parse)
    ensures Sum([], "", CPU, parse) == 0 && forall name :: Own([], name, CPU, parse) == 0
  {
  }
}
