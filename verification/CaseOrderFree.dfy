/** Lists that stand for sets: their order changes neither the normal form nor the effect of a command. */
module CaseOrderFree {
  import opened Results
  import opened Binary64
  import opened CaseTypes
  import opened CaseNormalize
  import opened CaseNormalForms
  import opened CaseHandle
  import S = Sorting

  /** The same elements, in any order. */
  ghost predicate Permuted<T>(xs: seq<T>, ys: seq<T>) {
    multiset(xs) == multiset(ys)
  }

  ghost predicate DistinctKeys<T>(key: T -> string, xs: seq<T>) {
    forall i, j :: 0 <= i < j < |xs| ==> key(xs[i]) != key(xs[j])
  }

  /** Distinct keys stay distinct in any order. */
  lemma KeysPermuted<T>(key: T -> string, xs: seq<T>, ys: seq<T>)
    requires Permuted(xs, ys) && DistinctKeys(key, xs)
    ensures DistinctKeys(key, ys) && S.KeyDetermines(key, xs)
  {
    S.PermutedDistinct(xs, ys);
    S.KeyDeterminesPermuted(key, xs, ys);
  }

  /** The checked and sorted form of a list with distinct keys does not depend on its order. */
  lemma CheckedAndSorted<T>(f: T -> Result<T>, key: T -> string, xs: seq<T>, ys: seq<T>)
    requires Permuted(xs, ys) && MapAll(f, xs).Ok? && DistinctKeys(key, MapAll(f, xs).value)
    ensures MapAll(f, ys).Ok? && DistinctKeys(key, MapAll(f, ys).value) && |xs| == |ys|
    ensures S.Sort(key, MapAll(f, ys).value) == S.Sort(key, MapAll(f, xs).value)
    ensures DistinctKeys(key, S.Sort(key, MapAll(f, xs).value))
  {
    var a := MapAll(f, xs).value;
    MapAllPermuted(f, xs, ys);
    KeysPermuted(key, a, MapAll(f, ys).value);
    S.SortIgnoresOrder(key, a, MapAll(f, ys).value);
    S.SortPermutes(key, a);
    KeysPermuted(key, a, S.Sort(key, a));
  }

  lemma DistinctBindingsKeys(bs: seq<SourceBinding>)
    ensures DistinctBindings(bs) <==> DistinctKeys(BindingKey, bs)
  {
  }

  lemma DistinctOptionsKeys(os: seq<ParticipationOption>)
    ensures DistinctOptions(os) <==> DistinctKeys(OptionKey, os)
  {
  }

  /** Brief bindings in any order have one normal form. */
  lemma BriefIgnoresOrder(env: Env, b: BriefInput, bs: seq<SourceBinding>)
    requires Permuted(b.sourceBindings, bs) && NormalizeBrief(env, b).Ok?
    ensures NormalizeBrief(env, b.(sourceBindings := bs)) == NormalizeBrief(env, b)
  {
    hide NonEmpty, DistinctBindings;
    var f := BindingNormalizer(env);
    DistinctBindingsKeys(MapAll(f, b.sourceBindings).value);
    CheckedAndSorted(f, BindingKey, b.sourceBindings, bs);
    DistinctBindingsKeys(MapAll(f, bs).value);
  }

  /** Options in any order have one normal form: distinct keys are found out after sorting. */
  lemma OptionsIgnoreOrder(env: Env, os: seq<ParticipationOption>, qs: seq<ParticipationOption>)
    requires Permuted(os, qs) && NormalizeOptionSet(env, os).Ok?
    ensures NormalizeOptionSet(env, qs) == NormalizeOptionSet(env, os)
  {
    hide NormalizeOption, DistinctOptions;
    var f := OptionNormalizer(env);
    var a := MapAll(f, os).value;
    var sorted := S.Sort(OptionKey, a);
    S.SortPermutes(OptionKey, a);
    DistinctOptionsKeys(sorted);
    KeysPermuted(OptionKey, sorted, a);
    CheckedAndSorted(f, OptionKey, os, qs);
  }

  /** The same participation but for the order of options, dissent and limitations. */
  ghost predicate SameButOrder(p: Participation, q: Participation) {
    && Permuted(p.body.options, q.body.options)
    && Permuted(p.body.unresolvedDissent, q.body.unresolvedDissent)
    && Permuted(p.body.limitations, q.body.limitations)
    && Permuted(p.body.representationAudit.limitations, q.body.representationAudit.limitations)
    && q == p.(body := p.body.(options := q.body.options, unresolvedDissent := q.body.unresolvedDissent,
            limitations := q.body.limitations,
            representationAudit := p.body.representationAudit.(
            limitations := q.body.representationAudit.limitations)))
  }

  lemma AuditIgnoresOrder(env: Env, a: RepresentationAudit, ls: seq<string>)
    requires Permuted(a.limitations, ls) && NormalizeAudit(env, a).Ok?
    ensures NormalizeAudit(env, a.(limitations := ls)) == NormalizeAudit(env, a)
  {
    hide ParticipationText, ParticipationTextArray, NormalizeOptionalText;
    TextArrayIgnoresOrder(env, a.limitations, ls, ParticipationField);
  }

  lemma TextsIgnoreOrder(env: Env, b: ParticipationBody, c: ParticipationBody)
    requires NormalizeParticipationTexts(env, b).Ok?
    requires Permuted(b.unresolvedDissent, c.unresolvedDissent) && Permuted(b.limitations, c.limitations)
    requires c == b.(options := c.options, representationAudit := c.representationAudit,
                  unresolvedDissent := c.unresolvedDissent, limitations := c.limitations)
    ensures NormalizeParticipationTexts(env, c).Ok?
    ensures NormalizeParticipationTexts(env, c).value
         == NormalizeParticipationTexts(env, b).value.(options := c.options,
            representationAudit := c.representationAudit)
  {
    hide ParticipationText, ParticipationTextArray;
    TextArrayIgnoresOrder(env, b.unresolvedDissent, c.unresolvedDissent, ParticipationField);
    TextArrayIgnoresOrder(env, b.limitations, c.limitations, ParticipationField);
  }

  /** Options, dissent and limitations in any order have one normal form. */
  lemma ParticipationIgnoresOrder(env: Env, p: Participation, q: Participation)
    requires SameButOrder(p, q) && NormalizeParticipation(env, p).Ok?
    ensures NormalizeParticipation(env, q) == NormalizeParticipation(env, p)
  {
    hide ParticipationText, NormalizeOptionSet, NormalizeAudit, NormalizeOptionalText, NormalizeParticipationTexts,
      CheckCounts;
    OptionsIgnoreOrder(env, p.body.options, q.body.options);
    AuditIgnoresOrder(env, p.body.representationAudit, q.body.representationAudit.limitations);
    TextsIgnoreOrder(env, p.body, q.body);
  }

  /** The same command but for the order of what stands for sets. */
  ghost predicate SameCommand(c: Command, d: Command) {
    && d == c.(body := d.body)
    && match c.body
       case DeriveCitizenBrief(b) =>
         && d.body.DeriveCitizenBrief? && Permuted(b.sourceBindings, d.body.brief.sourceBindings)
         && d.body.brief == b.(sourceBindings := d.body.brief.sourceBindings)
       case RecordAdvisoryParticipation(p, s) =>
         d.body.RecordAdvisoryParticipation? && d.body.sourceBrief == s && SameButOrder(p, d.body.participation)
       case _ => d == c
  }

  lemma BodyIgnoresOrder(env: Env, opt: Options, c: Command, d: Command)
    requires SameCommand(c, d) && NormalizeBody(env, opt, c.body).Ok?
    ensures NormalizeBody(env, opt, d.body) == NormalizeBody(env, opt, c.body)
  {
    hide NormalizeArtifact, NormalizePackage, NormalizeDraft, NormalizeReview, NormalizeRetraction,
      NormalizeParticipation, NormalizeParticipationReference, NormalizeBriefReference, NormalizeOutcome, NonEmpty,
      NormalizeBrief, SameButOrder;
    match c.body
    case DeriveCitizenBrief(b) => BriefIgnoresOrder(env, b, d.body.brief.sourceBindings);
    case RecordAdvisoryParticipation(p, _) => ParticipationIgnoresOrder(env, p, d.body.participation);
    case _ =>
  }

  lemma SameCommandBack(c: Command, d: Command)
    requires SameCommand(c, d)
    ensures SameCommand(d, c)
  {
  }

  lemma CommandIgnoresOrder(env: Env, opt: Options, c: Command, d: Command)
    requires SameCommand(c, d) && NormalizeCommand(env, opt, c).Ok?
    ensures NormalizeCommand(env, opt, d) == NormalizeCommand(env, opt, c)
  {
    hide NormalizeBody, SameCommand, NonEmpty, NormalizeActor;
    assert d == c.(body := d.body) by { SameEnvelope(c, d); }
    BodyIgnoresOrder(env, opt, c, d);
  }

  /**
   The order changes neither the fingerprint of a command nor anything that handling it does. A command
   that is refused for its content is refused in any order and changes nothing; only the error may
   differ, for the first bad element is another one.
   */
  lemma HandleIgnoresOrder(env: Env, opt: Options, j: Journal, c: Command, d: Command)
    requires SameCommand(c, d)
    ensures NormalizeCommand(env, opt, c).Ok? <==> NormalizeCommand(env, opt, d).Ok?
    ensures NormalizeCommand(env, opt, c).Ok? ==>
              && NormalizeCommand(env, opt, d) == NormalizeCommand(env, opt, c)
              && Prepare(env, opt, d) == Prepare(env, opt, c)
              && Handle(env, opt, j, d) == Handle(env, opt, j, c)
    ensures NormalizeCommand(env, opt, c).Err? ==>
              && Handle(env, opt, j, c) == (j, Err(NormalizeCommand(env, opt, c).code))
              && Handle(env, opt, j, d) == (j, Err(NormalizeCommand(env, opt, d).code))
  {
    hide SameCommand, NormalizeCommand, VerifyIntakeFor, VerifyTopicFor, VerifyAdoptionFor, Decide, Commit, Prepare,
      Considered;
    if NormalizeCommand(env, opt, c).Ok? {
      CommandIgnoresOrder(env, opt, c, d);
      PrepareFromNormal(env, opt, c, d);
      ConsideredFromPrepared(env, opt, j, c, d);
    } else {
      if NormalizeCommand(env, opt, d).Ok? {
        SameCommandBack(c, d);
        CommandIgnoresOrder(env, opt, d, c);
        assert false;
      }
      RefusedOutright(env, opt, j, c);
      RefusedOutright(env, opt, j, d);
    }
  }

  /** A command that does not normalise changes nothing. */
  lemma RefusedOutright(env: Env, opt: Options, j: Journal, c: Command)
    requires NormalizeCommand(env, opt, c).Err?
    ensures Handle(env, opt, j, c) == (j, Err(NormalizeCommand(env, opt, c).code))
  {
    hide NormalizeCommand, VerifyIntakeFor, VerifyTopicFor, VerifyAdoptionFor, Decide, Commit;
  }

  lemma SameEnvelope(c: Command, d: Command)
    requires SameCommand(c, d)
    ensures d == c.(body := d.body)
  {
    hide SameButOrder;
  }

  lemma PrepareFromNormal(env: Env, opt: Options, c: Command, d: Command)
    requires NormalizeCommand(env, opt, d) == NormalizeCommand(env, opt, c)
    ensures Prepare(env, opt, d) == Prepare(env, opt, c)
  {
    hide NormalizeCommand, VerifyIntakeFor, VerifyTopicFor, VerifyAdoptionFor;
  }

  lemma ConsideredFromPrepared(env: Env, opt: Options, j: Journal, c: Command, d: Command)
    requires Prepare(env, opt, d) == Prepare(env, opt, c)
    ensures Considered(env, opt, j, d) == Considered(env, opt, j, c)
  {
    hide Prepare;
  }

  /** The counts of an accepted participation add up exactly, although they are added in binary64. */
  lemma CountsExact(options: seq<ParticipationOption>, audit: RepresentationAudit, total: nat)
    requires total <= MAX_SAFE_INTEGER
    ensures CheckCounts(options, audit, total) == Pass <==>
            total <= audit.totalCompleted && Sum(Counts(options)) == total
  {
    FloatSumDecidesExactSum(Counts(options), total);
  }

  lemma ParticipationCountsExact(env: Env, p: Participation)
    requires NormalizeParticipation(env, p).Ok?
    ensures var b := NormalizeParticipation(env, p).value.body;
            Sum(Counts(b.options)) == b.totalAccepted <= b.representationAudit.totalCompleted
  {
    hide ParticipationText, NormalizeOptionSet, NormalizeAudit, NormalizeOptionalText, NormalizeParticipationTexts,
      CheckCounts;
    var b := NormalizeParticipation(env, p).value.body;
    CountsExact(b.options, b.representationAudit, b.totalAccepted);
  }
}
