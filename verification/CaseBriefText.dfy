/** What a derived brief says, field by field. */
module CaseBriefText {
  import opened Results
  import opened CaseTypes
  import opened CaseNormalize
  import opened CaseBriefs
  import opened CaseInvariants
  import opened CaseBriefFacts
  import opened CaseDepartments
  import opened Pigeonholes

  /** Texts with a separator between neighbours. */
  function Joined(xs: seq<string>, separator: string): string {
    if |xs| == 0 then ""
    else if |xs| == 1 then xs[0]
    else Joined(xs[..|xs| - 1], separator) + separator + xs[|xs| - 1]
  }

  function Lines(rs: seq<Response>): seq<string> {
    seq(|rs|, i requires 0 <= i < |rs| => rs[i].departmentId + ": " + rs[i].publicSummary)
  }

  lemma {:induction false} JoinedFirst(x: string, xs: seq<string>, separator: string)
    requires xs != []
    ensures Joined([x] + xs, separator) == x + separator + Joined(xs, separator)
  {
    var all := [x] + xs;
    if |xs| > 1 {
      assert all[..|all| - 1] == [x] + xs[..|xs| - 1];
      JoinedFirst(x, xs[..|xs| - 1], separator);
    } else {
      assert all[..|all| - 1] == [x];
    }
  }

  /** The summary is the lines of the responses with a space between neighbours. */
  lemma {:induction false} SummaryJoins(rs: seq<Response>)
    ensures Summary(rs) == Joined(Lines(rs), " ")
  {
    if |rs| > 1 {
      SummaryJoins(rs[1..]);
      JoinedFirst(Lines(rs)[0], Lines(rs[1..]), " ");
      assert Lines(rs) == [Lines(rs)[0]] + Lines(rs[1..]);
    }
  }

  /** What the brief says of the department that answers as number `k`. */
  ghost predicate SaysOf(b: BriefBody, k: nat, d: Department) {
    && k < |b.responses| && k < |b.packageBindings| && Ready(d) && Responds(b.responses[k], d)
    && b.packageBindings[k]
       == PackageBinding(SourceBinding(d.pkg.id, d.packageChecksum, d.draft.value.draftArtifactChecksum,
                                       d.review.value.attestationChecksum),
                         d.pkg.departmentId, d.review.value.review.reviewedAt)
  }

  ghost predicate BriefSays(opt: Options, d: Discussion, s: Suggestion, ds: seq<Department>, id: string, b: Brief) {
    && b.briefChecksum == OfBrief(b.body)
    && b.body.id == id && b.body.title == s.title && b.body.suggestionId == s.id
    && b.body.sourceDiscussionRef == SourceReference(d.event.id, d.sourceRef)
    && b.body.policyVersion == opt.policyVersion
    && b.body.summary == Joined(Lines(b.body.responses), " ")
    && opt.requiredDepartmentIds.Some?
    && var required := opt.requiredDepartmentIds.value;
    && |b.body.responses| == |b.body.packageBindings| == |required|
    && forall k :: 0 <= k < |required| ==>
                     && FindDepartment(ds, required[k]) < |ds|
                     && SaysOf(b.body, k, DepartmentFor(ds, required[k]))
  }

  lemma {:induction false} BoundWithTimes(required: seq<string>, bs: seq<SourceBinding>, ds: seq<Department>)
    requires |bs| == |required| && PackageBindings(required, bs, ds).Ok?
    ensures var r := PackageBindings(required, bs, ds).value;
            && |r| == |required|
            && forall k :: 0 <= k < |r| ==>
                             && FindDepartment(ds, required[k]) < |ds| && DepartmentFor(ds, required[k]).review.Some?
                             && r[k] == PackageBinding(bs[k], required[k],
                                                       DepartmentFor(ds, required[k]).review.value.review.reviewedAt)
  {
    if required != [] {
      BoundWithTimes(required[1..], bs[1..], ds);
    }
  }

  /** The validated bindings are the given ones in another order. */
  lemma OrderedPermutes(required: seq<string>, bs: seq<SourceBinding>, ds: seq<Department>)
    requires OrderBindings(required, bs, ds).Ok? && Unique(ds) && ValidRequired(required)
    requires DistinctBindings(bs) && |bs| == |required|
    ensures multiset(OrderBindings(required, bs, ds).value) == multiset(bs)
  {
    hide OrderBindings, BindingOf, Ready, DepartmentFor;
    var r := OrderBindings(required, bs, ds).value;
    OrderingFinds(required, bs, ds);
    OrderedFromList(required, bs, ds);
    OrderedDistinct(required, bs, ds);
    assert forall i :: 0 <= i < |r| ==> r[i] in bs;
    Pigeonhole(r, bs);
    DistinctSameMembers(r, bs);
  }

  lemma {:induction false} DistinctCounts<T>(xs: seq<T>, x: T)
    requires forall i, j :: 0 <= i < j < |xs| ==> xs[i] != xs[j]
    ensures multiset(xs)[x] == if x in xs then 1 else 0
  {
    if xs != [] {
      DistinctCounts(xs[1..], x);
      assert xs == [xs[0]] + xs[1..];
    }
  }

  lemma DistinctSameMembers<T>(xs: seq<T>, ys: seq<T>)
    requires forall i, j :: 0 <= i < j < |xs| ==> xs[i] != xs[j]
    requires forall i, j :: 0 <= i < j < |ys| ==> ys[i] != ys[j]
    requires forall x :: x in xs <==> x in ys
    ensures multiset(xs) == multiset(ys)
  {
    forall x ensures multiset(xs)[x] == multiset(ys)[x] {
      DistinctCounts(xs, x);
      DistinctCounts(ys, x);
    }
  }

  /** A derived brief says of every required department what its review accepted, and binds the given bindings. */
  lemma DerivedSays(opt: Options, d: Discussion, s: Suggestion, ds: seq<Department>, id: string, bs: seq<SourceBinding>)
    requires ValidateAndDerive(opt, d, s, ds, id, bs).Ok? && ValidOptions(opt) && Unique(ds)
    ensures var (ordered, b) := ValidateAndDerive(opt, d, s, ds, id, bs).value;
            && BriefSays(opt, d, s, ds, id, b)
            && ordered == Unbound(b.body.packageBindings) && multiset(ordered) == multiset(bs)
  {
    hide OrderBindings, Responses, PackageBindings, Responds, ResponseOf, Ready;
    var required := opt.requiredDepartmentIds.value;
    var (ordered, b) := ValidateAndDerive(opt, d, s, ds, id, bs).value;
    OrderingFinds(required, bs, ds);
    OrderedPermutes(required, bs, ds);
    ResponsesFollow(required, ds);
    SummaryJoins(b.body.responses);
    BoundWithTimes(required, ordered, ds);
    PackageBindingsBind(required, ordered, ds);
    forall k | 0 <= k < |required|
      ensures FindDepartment(ds, required[k]) < |ds| && SaysOf(b.body, k, DepartmentFor(ds, required[k]))
    {
      ReadyHasWork(ds, required[k]);
      ResponseResponds(DepartmentFor(ds, required[k]));
    }
  }

  lemma ReadyHasWork(ds: seq<Department>, departmentId: string)
    requires ReadyFor(ds, departmentId)
    ensures DepartmentFor(ds, departmentId).draft.Some? && DepartmentFor(ds, departmentId).review.Some?
  {
  }
}
