/** What a derived brief says about the departments, and why it is current when it is derived. */
module CaseBriefFacts {
  import opened Results
  import opened Texts
  import opened CaseTypes
  import opened CaseNormalize
  import opened CaseBriefs
  import opened CaseReplay
  import opened CaseInvariants

  /** What `normalizeOptions` leaves true. */
  ghost predicate ValidOptions(opt: Options) {
    && !(opt.citizenAdoption && opt.syntheticAdoption)
    && (opt.syntheticDepartmentReview ==> opt.syntheticAdoption && opt.requiredDepartmentIds.Some?)
    && (opt.citizenAdoption || opt.syntheticAdoption ==> opt.scope.None? && opt.requireSignedSuggestionAdmission)
    && (opt.requiredDepartmentIds.Some? ==> ValidRequired(opt.requiredDepartmentIds.value))
  }

  /** Eight distinct department ids in sorted order. */
  ghost predicate ValidRequired(required: seq<string>) {
    && |required| == REQUIRED_DEPARTMENTS
    && forall i, j :: 0 <= i < j < |required| ==> required[i] != required[j] && Less(required[i], required[j])
  }

  /** The ready department of a required id. */
  ghost predicate ReadyFor(ds: seq<Department>, departmentId: string) {
    && FindDepartment(ds, departmentId) < |ds|
    && Ready(ds[FindDepartment(ds, departmentId)])
  }

  function DepartmentFor(ds: seq<Department>, departmentId: string): Department
    requires FindDepartment(ds, departmentId) < |ds|
  {
    ds[FindDepartment(ds, departmentId)]
  }

  /** Ordered bindings are the bindings of the required departments, taken from the given list. */
  lemma {:induction false} OrderingFinds(required: seq<string>, bs: seq<SourceBinding>, ds: seq<Department>)
    requires OrderBindings(required, bs, ds).Ok?
    ensures |OrderBindings(required, bs, ds).value| == |required|
    ensures forall k :: 0 <= k < |required| ==>
                          && ReadyFor(ds, required[k])
                          && OrderBindings(required, bs, ds).value[k] == BindingOf(DepartmentFor(ds, required[k]))
  {
    if required != [] {
      OrderingFinds(required[1..], bs, ds);
    }
  }

  /** A list that holds the binding of every required department, each package once, is ordered. */
  lemma {:induction false} OrderingSucceeds(required: seq<string>, bs: seq<SourceBinding>, ds: seq<Department>)
    requires DistinctBindings(bs)
    requires forall k :: 0 <= k < |required| ==> ReadyFor(ds, required[k])
                                                 && BindingOf(DepartmentFor(ds, required[k])) in bs
    ensures OrderBindings(required, bs, ds).Ok?
  {
    if required != [] {
      OrderingSucceeds(required[1..], bs, ds);
      var b := BindingOf(DepartmentFor(ds, required[0]));
      var i :| 0 <= i < |bs| && bs[i] == b;
      assert FindBinding(bs, b.packageId) == i;
    }
  }

  lemma OrderedDistinct(required: seq<string>, bs: seq<SourceBinding>, ds: seq<Department>)
    requires OrderBindings(required, bs, ds).Ok? && Unique(ds) && ValidRequired(required)
    ensures DistinctBindings(OrderBindings(required, bs, ds).value)
  {
    OrderingFinds(required, bs, ds);
    var r := OrderBindings(required, bs, ds).value;
    forall i, j | 0 <= i < j < |r| ensures r[i].packageId != r[j].packageId {
      var a, b := FindDepartment(ds, required[i]), FindDepartment(ds, required[j]);
      assert ds[a].pkg.departmentId != ds[b].pkg.departmentId;
      assert a < b || b < a;
    }
  }

  /** Ordering ordered bindings changes nothing. */
  lemma OrderingAgain(required: seq<string>, bs: seq<SourceBinding>, ds: seq<Department>)
    requires OrderBindings(required, bs, ds).Ok? && Unique(ds) && ValidRequired(required)
    ensures OrderBindings(required, OrderBindings(required, bs, ds).value, ds) == OrderBindings(required, bs, ds)
  {
    var r := OrderBindings(required, bs, ds).value;
    OrderingFinds(required, bs, ds);
    OrderedDistinct(required, bs, ds);
    OrderingSucceeds(required, r, ds);
    OrderingFinds(required, r, ds);
    assert OrderBindings(required, r, ds).value == r;
  }

  /** Validating the ordered bindings again gives the same bindings and the same brief. */
  lemma ValidatingAgain(opt: Options, d: Discussion, s: Suggestion, ds: seq<Department>, id: string,
                        bs: seq<SourceBinding>)
    requires ValidateAndDerive(opt, d, s, ds, id, bs).Ok? && ValidOptions(opt) && Unique(ds)
    ensures var r := ValidateAndDerive(opt, d, s, ds, id, bs).value;
            ValidateAndDerive(opt, d, s, ds, id, r.0) == Ok(r)
  {
    hide DeriveBrief, OrderBindings;
    var required := opt.requiredDepartmentIds.value;
    OrderingAgain(required, bs, ds);
    OrderedDistinct(required, bs, ds);
    OrderingFinds(required, bs, ds);
  }

  lemma {:induction false} PackageBindingsBind(required: seq<string>, bs: seq<SourceBinding>, ds: seq<Department>)
    requires |bs| == |required| && PackageBindings(required, bs, ds).Ok?
    ensures var r := PackageBindings(required, bs, ds).value;
            && |r| == |required| && Unbound(r) == bs
            && forall k :: 0 <= k < |r| ==> r[k].departmentId == required[k]
  {
    if required != [] {
      PackageBindingsBind(required[1..], bs[1..], ds);
      var r := PackageBindings(required, bs, ds).value;
      assert Unbound(r) == [bs[0]] + Unbound(r[1..]);
      assert bs == [bs[0]] + bs[1..];
    }
  }

  lemma {:induction false} SourcesCounted(bs: seq<SourceBinding>, ds: seq<Department>)
    requires SourceEventIds(bs, ds).Ok? && DistinctBindings(bs)
    ensures |SourceEventIds(bs, ds).value| == |bs|
    ensures forall id :: id in SourceEventIds(bs, ds).value ==> exists k :: 0 <= k < |bs| && bs[k].packageId == id
  {
    hide FindPackage;
    if bs != [] {
      var init, last := bs[..|bs| - 1], bs[|bs| - 1];
      SourcesCounted(init, ds);
      assert last.packageId !in SourceEventIds(init, ds).value;
    }
  }

  lemma {:induction false} SourcesPinned(bs: seq<SourceBinding>, ds: seq<Department>)
    requires SourceEventIds(bs, ds).Ok? && DistinctBindings(bs)
    ensures forall k :: 0 <= k < |bs| ==> Pinned(ds, SourceEventIds(bs, ds).value, bs[k].packageId)
  {
    if bs != [] {
      var init, last := bs[..|bs| - 1], bs[|bs| - 1];
      SourcesPinned(init, ds);
      var m, all := SourceEventIds(init, ds).value, SourceEventIds(bs, ds).value;
      forall k | 0 <= k < |bs| ensures Pinned(ds, all, bs[k].packageId) {
        if k < |init| {
          assert bs[k] == init[k];
          assert Pinned(ds, m, init[k].packageId);
        }
      }
    }
  }

  lemma {:induction false} FindsItself(ds: seq<Department>, i: nat)
    requires i < |ds| && Unique(ds)
    ensures FindPackage(ds, ds[i].pkg.id) == i && FindDepartment(ds, ds[i].pkg.departmentId) == i
  {
  }

  /** The bindings of ready departments have source events. */
  lemma {:induction false} ReadyHaveSources(bs: seq<SourceBinding>, ds: seq<Department>)
    requires Unique(ds)
    requires forall k :: 0 <= k < |bs| ==> BoundReady(ds, bs[k])
    ensures SourceEventIds(bs, ds).Ok?
  {
    if bs != [] {
      var init, last := bs[..|bs| - 1], bs[|bs| - 1];
      assert forall k :: 0 <= k < |init| ==> init[k] == bs[k];
      ReadyHaveSources(init, ds);
      assert BoundReady(ds, last);
      var i :| 0 <= i < |ds| && Ready(ds[i]) && last == BindingOf(ds[i]);
      FindsItself(ds, i);
    }
  }

  ghost predicate BoundReady(ds: seq<Department>, b: SourceBinding) {
    exists i :: 0 <= i < |ds| && Ready(ds[i]) && b == BindingOf(ds[i])
  }

  /** Validated bindings have source events. */
  lemma ValidatedHaveSources(opt: Options, bs: seq<SourceBinding>, ds: seq<Department>)
    requires Unique(ds) && ValidateBindings(opt, bs, ds).Ok?
    ensures SourceEventIds(ValidateBindings(opt, bs, ds).value, ds).Ok?
  {
    var required := opt.requiredDepartmentIds.value;
    OrderingFinds(required, bs, ds);
    var r := OrderBindings(required, bs, ds).value;
    forall k | 0 <= k < |r| ensures BoundReady(ds, r[k]) {
      assert ReadyFor(ds, required[k]);
    }
    ReadyHaveSources(r, ds);
  }

  /** Pinned events come from the journal so far. */
  lemma {:induction false} SourcesWithin(bs: seq<SourceBinding>, ds: seq<Department>, n: nat)
    requires SourceEventIds(bs, ds).Ok?
    requires forall i :: 0 <= i < |ds| ==> DepartmentOk(ds[i], n)
    ensures forall id :: id in SourceEventIds(bs, ds).value ==>
                           && Within(SourceEventIds(bs, ds).value[id].draftEventId, n)
                           && Within(SourceEventIds(bs, ds).value[id].reviewEventId, n)
  {
    if bs != [] {
      SourcesWithin(bs[..|bs| - 1], ds, n);
    }
  }

  /** The bindings of a brief name the packages of the required departments, in their order. */
  ghost predicate Covers(required: seq<string>, pbs: seq<PackageBinding>, ds: seq<Department>) {
    && |pbs| == |required|
    && forall k :: 0 <= k < |required| ==>
                     && FindDepartment(ds, required[k]) < |ds|
                     && pbs[k].departmentId == required[k]
                     && pbs[k].binding.packageId == DepartmentFor(ds, required[k]).pkg.id
  }

  lemma DerivedBinds(opt: Options, st: CaseState, r: BriefRecord, bs: seq<SourceBinding>)
    requires DerivedFrom(opt, st, r, bs) && ValidOptions(opt) && Unique(st.departments)
    ensures opt.requiredDepartmentIds.Some?
    ensures var derived := ValidateAndDerive(opt, st.discussion.value, st.suggestion.value, st.departments,
                                             r.brief.body.id, bs).value;
            var required := opt.requiredDepartmentIds.value;
            && |required| == REQUIRED_DEPARTMENTS
            && |r.brief.body.packageBindings| == |required|
            && derived.0 == Unbound(r.brief.body.packageBindings)
            && DistinctBindings(derived.0)
            && forall k :: 0 <= k < |required| ==>
                             && r.brief.body.packageBindings[k].departmentId == required[k]
                             && ReadyFor(st.departments, required[k])
                             && derived.0[k] == BindingOf(DepartmentFor(st.departments, required[k]))
  {
    hide Responses, Summary, OrderBindings;
    var required := opt.requiredDepartmentIds.value;
    OrderingFinds(required, bs, st.departments);
    OrderedDistinct(required, bs, st.departments);
    PackageBindingsBind(required, OrderBindings(required, bs, st.departments).value, st.departments);
  }

  lemma DerivedCovers(opt: Options, st: CaseState, r: BriefRecord, bs: seq<SourceBinding>)
    requires DerivedFrom(opt, st, r, bs) && ValidOptions(opt) && Unique(st.departments)
    ensures opt.requiredDepartmentIds.Some?
    ensures Covers(opt.requiredDepartmentIds.value, r.brief.body.packageBindings, st.departments)
  {
    hide ValidateAndDerive;
    DerivedBinds(opt, st, r, bs);
    var pbs := r.brief.body.packageBindings;
    forall k | 0 <= k < |pbs|
      ensures pbs[k].binding.packageId == DepartmentFor(st.departments, opt.requiredDepartmentIds.value[k]).pkg.id
    {
      assert Unbound(pbs)[k] == pbs[k].binding;
    }
  }

  lemma DerivedPinned(opt: Options, st: CaseState, r: BriefRecord, bs: seq<SourceBinding>)
    requires DerivedFrom(opt, st, r, bs) && ValidOptions(opt) && Unique(st.departments)
    ensures |r.sourceEventIds| == |r.brief.body.packageBindings|
    ensures AllPinned(st.(brief := Some(r)))
  {
    hide ValidateAndDerive, Pinned;
    DerivedBinds(opt, st, r, bs);
    var pbs := r.brief.body.packageBindings;
    SourcesCounted(Unbound(pbs), st.departments);
    SourcesPinned(Unbound(pbs), st.departments);
    forall pb | pb in pbs ensures Pinned(st.departments, r.sourceEventIds, pb.binding.packageId) {
      var k :| 0 <= k < |pbs| && pbs[k] == pb;
      assert Unbound(pbs)[k] == pb.binding;
    }
  }

  /** A brief is current in the state it is derived in. */
  lemma DerivedIsCurrent(opt: Options, st: CaseState, r: BriefRecord, bs: seq<SourceBinding>)
    requires DerivedFrom(opt, st, r, bs) && ValidOptions(opt) && Unique(st.departments)
    requires r.brief.briefChecksum == OfBrief(r.brief.body)
    ensures BriefIsCurrent(opt, st.(brief := Some(r)))
  {
    hide ValidateAndDerive, AllPinned;
    DerivedBinds(opt, st, r, bs);
    DerivedPinned(opt, st, r, bs);
    ValidatingAgain(opt, st.discussion.value, st.suggestion.value, st.departments, r.brief.body.id, bs);
  }

  lemma {:induction false} OrderedFromList(required: seq<string>, bs: seq<SourceBinding>, ds: seq<Department>)
    requires OrderBindings(required, bs, ds).Ok?
    ensures forall k :: 0 <= k < |required| ==> ReadyFor(ds, required[k])
                                                && BindingOf(DepartmentFor(ds, required[k])) in bs
  {
    if required != [] {
      OrderedFromList(required[1..], bs, ds);
    }
  }

  lemma {:induction false} ReadyDerives(required: seq<string>, bs: seq<SourceBinding>, ds: seq<Department>)
    requires |bs| == |required| && forall k :: 0 <= k < |required| ==> ReadyFor(ds, required[k])
    ensures Responses(required, ds).Ok? && PackageBindings(required, bs, ds).Ok?
  {
    hide ResponseOf;
    if required != [] {
      assert ReadyFor(ds, required[0]);
      ReadyDerives(required[1..], bs[1..], ds);
    }
  }

  /** The bindings of a brief are the eight bindings of the required departments, in any order. */
  ghost predicate BindsAllReady(required: seq<string>, bs: seq<SourceBinding>, ds: seq<Department>) {
    && |bs| == |required| == REQUIRED_DEPARTMENTS && DistinctBindings(bs)
    && forall k :: 0 <= k < |required| ==> ReadyFor(ds, required[k]) && BindingOf(DepartmentFor(ds, required[k])) in bs
  }

  /** A brief can be derived exactly from the current bindings of the required departments, all of them accepted. */
  lemma DerivesExactly(opt: Options, d: Discussion, s: Suggestion, ds: seq<Department>, id: string,
                       bs: seq<SourceBinding>)
    ensures ValidateAndDerive(opt, d, s, ds, id, bs).Ok? <==>
            opt.requiredDepartmentIds.Some? && BindsAllReady(opt.requiredDepartmentIds.value, bs, ds)
  {
    hide OrderBindings, Responses, PackageBindings, Summary, ReadyFor;
    if opt.requiredDepartmentIds.Some? {
      var required := opt.requiredDepartmentIds.value;
      if OrderBindings(required, bs, ds).Ok? {
        OrderedFromList(required, bs, ds);
      }
      if BindsAllReady(required, bs, ds) {
        OrderingSucceeds(required, bs, ds);
        OrderBindingsLength(required, bs, ds);
        ReadyDerives(required, OrderBindings(required, bs, ds).value, ds);
      }
    }
  }
}
