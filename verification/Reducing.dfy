/** Merging partial results group by group until one is left (analysis.py, daily_summary.py). */
module Reducing {
  import opened Prelude

  const MAX_GROUP := 8
  const MAX_REDUCE_PASSES := 6

  /** How big a group may get: its drafts' printed sizes together, and for an analysis their number. */
  datatype Limits<!D> = Limits(size: D -> nat, maxChars: nat, most: Option<nat>)

  predicate ValidLimits<D>(limits: Limits<D>) {
    limits.most.Some? ==> limits.most.value >= 2
  }

  // ----- grouping -----

  function Weight<D>(limits: Limits<D>, group: seq<D>): nat {
    if group == [] then 0 else Weight(limits, group[..|group| - 1]) + limits.size(group[|group| - 1])
  }

  predicate Full<D>(limits: Limits<D>, group: seq<D>) {
    limits.most.Some? && |group| >= limits.most.value
  }

  /** A draft joins the group before it while that group is not full and the two fit together. */
  predicate Joins<D>(limits: Limits<D>, group: seq<D>, draft: D) {
    !Full(limits, group) && Weight(limits, group) + limits.size(draft) <= limits.maxChars
  }

  function Greedy<D>(limits: Limits<D>, drafts: seq<D>): seq<seq<D>> {
    if drafts == [] then []
    else
      var groups := Greedy(limits, drafts[..|drafts| - 1]);
      var draft := drafts[|drafts| - 1];
      if groups != [] && Joins(limits, groups[|groups| - 1], draft)
      then groups[..|groups| - 1] + [groups[|groups| - 1] + [draft]]
      else groups + [[draft]]
  }

  predicate AllSingle<D>(groups: seq<seq<D>>) {
    forall k :: 0 <= k < |groups| ==> |groups[k]| == 1
  }

  function Pairs<D>(drafts: seq<D>): (groups: seq<seq<D>>)
    ensures |groups| == (|drafts| + 1) / 2
    ensures forall k :: 0 <= k < |groups| ==> 1 <= |groups[k]| <= 2
  {
    if |drafts| == 0 then []
    else if |drafts| == 1 then [drafts]
    else [drafts[..2]] + Pairs(drafts[2..])
  }

  /** Drafts too large to share a group are paired anyway, so that every pass makes progress. */
  function DraftGroups<D>(limits: Limits<D>, drafts: seq<D>): seq<seq<D>> {
    var groups := Greedy(limits, drafts);
    if |groups| == |drafts| && AllSingle(groups) then Pairs(drafts) else groups
  }

  // ----- what grouping guarantees -----

  lemma {:induction false} PairsKeepDrafts<D>(drafts: seq<D>)
    ensures Flatten(Pairs(drafts)) == drafts
  {
    if |drafts| == 1 {
      FlattenHead(drafts, []);
      assert [drafts] + [] == [drafts];
    } else if |drafts| > 1 {
      PairsKeepDrafts(drafts[2..]);
      FlattenHead(drafts[..2], Pairs(drafts[2..]));
    }
  }

  lemma GreedyStep<D>(limits: Limits<D>, groups: seq<seq<D>>, draft: D)
    ensures Flatten(groups + [[draft]]) == Flatten(groups) + [draft]
    ensures groups != [] ==>
              Flatten(groups[..|groups| - 1] + [groups[|groups| - 1] + [draft]]) == Flatten(groups) + [draft]
  {
    FlattenMore(groups, [draft]);
    if groups != [] {
      var front, last := groups[..|groups| - 1], groups[|groups| - 1];
      FlattenMore(front, last + [draft]);
      assert Flatten(front) + (last + [draft]) == (Flatten(front) + last) + [draft];
    }
  }

  lemma {:induction false} GreedyKeepsDrafts<D>(limits: Limits<D>, drafts: seq<D>)
    ensures Flatten(Greedy(limits, drafts)) == drafts
    ensures forall k :: 0 <= k < |Greedy(limits, drafts)| ==> Greedy(limits, drafts)[k] != []
    ensures |Greedy(limits, drafts)| <= |drafts|
    ensures |Greedy(limits, drafts)| == |drafts| ==> AllSingle(Greedy(limits, drafts))
  {
    hide Joins, Flatten;
    if drafts == [] {
      FlattenNone<D>();
    } else {
      var front, draft := drafts[..|drafts| - 1], drafts[|drafts| - 1];
      GreedyKeepsDrafts(limits, front);
      GreedyStep(limits, Greedy(limits, front), draft);
      assert front + [draft] == drafts;
    }
  }

  /** Grouping keeps every draft, in order, leaves no group empty, and makes two or more drafts strictly fewer. */
  lemma GroupingShrinks<D>(limits: Limits<D>, drafts: seq<D>)
    ensures Flatten(DraftGroups(limits, drafts)) == drafts
    ensures forall k :: 0 <= k < |DraftGroups(limits, drafts)| ==> DraftGroups(limits, drafts)[k] != []
    ensures |drafts| >= 2 ==> |DraftGroups(limits, drafts)| < |drafts|
    ensures |drafts| >= 1 ==> |DraftGroups(limits, drafts)| >= 1
  {
    hide Greedy, Flatten, Pairs;
    GreedyKeepsDrafts(limits, drafts);
    PairsKeepDrafts(drafts);
    FlattenNone<D>();
  }

  lemma GreedyMore<D>(limits: Limits<D>, front: seq<D>, draft: D)
    ensures var groups := Greedy(limits, front);
            Greedy(limits, front + [draft]) ==
            if groups != [] && Joins(limits, groups[|groups| - 1], draft)
            then groups[..|groups| - 1] + [groups[|groups| - 1] + [draft]] else groups + [[draft]]
  {
    hide Joins;
    assert (front + [draft])[..|front|] == front;
  }

  lemma WeightOfNone<D>(limits: Limits<D>)
    ensures Weight(limits, []) == 0 && Greedy(limits, []) == []
  {
  }

  lemma WeightMore<D>(limits: Limits<D>, group: seq<D>, draft: D)
    ensures Weight(limits, group + [draft]) == Weight(limits, group) + limits.size(draft)
  {
    assert (group + [draft])[..|group|] == group;
  }

  /** A group that a draft may join stays within the limits with it. */
  lemma JoiningFits<D>(limits: Limits<D>, group: seq<D>, draft: D)
    requires ValidLimits(limits) && group != [] && Joins(limits, group, draft)
    ensures GroupFits(limits, group + [draft])
  {
    hide Weight;
    WeightMore(limits, group, draft);
  }

  predicate GroupFits<D>(limits: Limits<D>, group: seq<D>) {
    && (|group| == 1 || (|group| > 1 && Weight(limits, group) <= limits.maxChars))
    && (limits.most.Some? ==> |group| <= limits.most.value)
  }

  lemma {:induction false} GreedyFits<D>(limits: Limits<D>, drafts: seq<D>, k: nat)
    requires ValidLimits(limits) && k < |Greedy(limits, drafts)|
    ensures GroupFits(limits, Greedy(limits, drafts)[k])
  {
    hide Joins, Weight;
    var n := |drafts| - 1;
    var groups := Greedy(limits, drafts[..n]);
    assert drafts == drafts[..n] + [drafts[n]];
    GreedyMore(limits, drafts[..n], drafts[n]);
    if k < |groups| {
      GreedyFits(limits, drafts[..n], k);
      if k == |groups| - 1 && Joins(limits, groups[k], drafts[n]) {
        JoiningFits(limits, groups[k], drafts[n]);
      }
    }
  }

  /** A group is within the request's limits, unless it is a single draft or a pair of drafts that were all too big to share. */
  lemma GroupsFit<D>(limits: Limits<D>, drafts: seq<D>, k: nat)
    requires ValidLimits(limits) && k < |DraftGroups(limits, drafts)|
    ensures var group := DraftGroups(limits, drafts)[k];
            && (limits.most.Some? ==> |group| <= limits.most.value)
            && (|group| > 1 && Weight(limits, group) > limits.maxChars ==>
                  |group| == 2 && |Greedy(limits, drafts)| == |drafts|)
  {
    hide Greedy, Pairs, Weight;
    if k < |Greedy(limits, drafts)| {
      GreedyFits(limits, drafts, k);
    }
  }

  // ----- when a group ends -----

  /** Group k begins because the one before it has as many drafts as a request takes, or no room for one more. */
  ghost predicate Begins<D>(limits: Limits<D>, groups: seq<seq<D>>, k: nat)
    requires 0 < k < |groups|
  {
    && groups[k] != []
    && ((limits.most.Some? && |groups[k - 1]| >= limits.most.value)
        || Weight(limits, groups[k - 1]) + limits.size(groups[k][0]) > limits.maxChars)
  }

  lemma StillBegins<D>(limits: Limits<D>, groups: seq<seq<D>>, draft: D, k: nat)
    requires 0 < k < |groups| && Begins(limits, groups, k)
    ensures Begins(limits, groups + [[draft]], k)
    ensures Begins(limits, groups[..|groups| - 1] + [groups[|groups| - 1] + [draft]], k)
  {
    hide Weight;
    var longer := groups[..|groups| - 1] + [groups[|groups| - 1] + [draft]];
    assert longer[k - 1] == groups[k - 1] && longer[k] != [] && longer[k][0] == groups[k][0];
  }

  lemma NowBegins<D>(limits: Limits<D>, groups: seq<seq<D>>, draft: D)
    requires groups != [] && !Joins(limits, groups[|groups| - 1], draft)
    ensures Begins(limits, groups + [[draft]], |groups|)
  {
    hide Weight;
  }

  lemma {:induction false} GreedyBegins<D>(limits: Limits<D>, drafts: seq<D>, k: nat)
    requires 0 < k < |Greedy(limits, drafts)|
    ensures Begins(limits, Greedy(limits, drafts), k)
  {
    hide Weight, Begins, Joins;
    var n := |drafts| - 1;
    var groups := Greedy(limits, drafts[..n]);
    assert drafts == drafts[..n] + [drafts[n]];
    GreedyMore(limits, drafts[..n], drafts[n]);
    if k < |groups| {
      GreedyBegins(limits, drafts[..n], k);
      StillBegins(limits, groups, drafts[n], k);
    } else {
      NowBegins(limits, groups, drafts[n]);
    }
  }

  /** Two neighbours are too big to share a request. */
  predicate TooBig<D>(limits: Limits<D>, drafts: seq<D>, i: nat)
    requires i + 1 < |drafts|
  {
    limits.size(drafts[i]) + limits.size(drafts[i + 1]) > limits.maxChars
  }

  lemma {:induction false} SinglesAre<D>(drafts: seq<D>, groups: seq<seq<D>>)
    requires Flatten(groups) == drafts && AllSingle(groups)
    ensures |groups| == |drafts| && forall k :: 0 <= k < |groups| ==> groups[k] == [drafts[k]]
  {
    if groups != [] {
      SinglesAre(drafts[..|drafts| - 1], groups[..|groups| - 1]);
    }
  }

  /** Every neighbour pair is too big exactly when the greedy groups are single drafts. */
  lemma SingleIffTooBig<D>(limits: Limits<D>, drafts: seq<D>)
    requires ValidLimits(limits)
    ensures AllSingle(Greedy(limits, drafts)) <==> forall i :: 0 <= i && i + 1 < |drafts| ==> TooBig(limits, drafts, i)
  {
    hide Greedy, Flatten, Weight;
    GreedyKeepsDrafts(limits, drafts);
    var groups := Greedy(limits, drafts);
    if AllSingle(groups) {
      SinglesAre(drafts, groups);
      forall i | 0 <= i && i + 1 < |drafts|
        ensures TooBig(limits, drafts, i)
      {
        GreedyBegins(limits, drafts, i + 1);
        WeightOfOne(limits, drafts[i]);
      }
    } else if forall i :: 0 <= i && i + 1 < |drafts| ==> TooBig(limits, drafts, i) {
      BigStandAlone(limits, drafts);
    }
  }

  lemma WeightOfOne<D>(limits: Limits<D>, draft: D)
    ensures Weight(limits, [draft]) == limits.size(draft)
  {
    WeightMore(limits, [], draft);
    WeightOfNone(limits);
    assert [] + [draft] == [draft];
  }

  lemma {:induction false} BigStandAlone<D>(limits: Limits<D>, drafts: seq<D>)
    requires forall i :: 0 <= i && i + 1 < |drafts| ==> TooBig(limits, drafts, i)
    ensures AllSingle(Greedy(limits, drafts))
  {
    hide Flatten, Weight;
    if drafts != [] {
      var n := |drafts| - 1;
      var front := drafts[..n];
      forall i | 0 <= i && i + 1 < |front|
        ensures TooBig(limits, front, i)
      {
        assert TooBig(limits, drafts, i);
      }
      BigStandAlone(limits, front);
      GreedyKeepsDrafts(limits, front);
      SinglesAre(front, Greedy(limits, front));
      if n > 0 {
        assert TooBig(limits, drafts, n - 1);
        WeightOfOne(limits, drafts[n - 1]);
      }
    }
  }

  lemma {:induction false} PairsAre<D>(drafts: seq<D>, k: nat)
    requires k < |Pairs(drafts)|
    ensures 2 * k < |drafts|
    ensures Pairs(drafts)[k] == drafts[2 * k..if 2 * k + 2 <= |drafts| then 2 * k + 2 else |drafts|]
  {
    if k > 0 {
      PairsAre(drafts[2..], k - 1);
    }
  }

  /** Drafts of which no two neighbours fit into one request go in pairs; otherwise a group ends only because it is
      full or the next draft does not fit. */
  lemma GroupsEndForced<D>(limits: Limits<D>, drafts: seq<D>, k: nat)
    requires ValidLimits(limits) && k < |DraftGroups(limits, drafts)|
    ensures if forall i :: 0 <= i && i + 1 < |drafts| ==> TooBig(limits, drafts, i) then
              2 * k < |drafts|
              && DraftGroups(limits, drafts)[k] == drafts[2 * k..if 2 * k + 2 <= |drafts| then 2 * k + 2 else |drafts|]
            else k > 0 ==> Begins(limits, DraftGroups(limits, drafts), k)
  {
    hide Greedy, Pairs, Weight, TooBig, Begins, Flatten;
    SingleIffTooBig(limits, drafts);
    GreedyKeepsDrafts(limits, drafts);
    if AllSingle(Greedy(limits, drafts)) {
      SinglesAre(drafts, Greedy(limits, drafts));
      PairsAre(drafts, k);
    } else if k > 0 {
      GreedyBegins(limits, drafts, k);
    }
  }

  // ----- the loops -----

  method PairUp<D>(drafts: seq<D>) returns (groups: seq<seq<D>>)
    ensures groups == Pairs(drafts)
  {
    groups := [];
    var index := 0;
    while index < |drafts|
      invariant 0 <= index
      invariant index <= |drafts| ==> Pairs(drafts) == groups + Pairs(drafts[index..])
      invariant index > |drafts| ==> Pairs(drafts) == groups
      decreases |drafts| - index
    {
      var end := if index + 2 <= |drafts| then index + 2 else |drafts|;
      ghost var rest := drafts[index..];
      if index + 2 <= |drafts| {
        assert rest[..2] == drafts[index..end] && rest[2..] == drafts[end..];
      } else {
        assert rest == drafts[index..end];
      }
      groups := groups + [drafts[index..end]];
      index := index + 2;
    }
    if index == |drafts| {
      assert drafts[index..] == [];
    }
  }

  method GroupDrafts<D>(limits: Limits<D>, drafts: seq<D>) returns (groups: seq<seq<D>>)
    requires ValidLimits(limits)
    ensures groups == DraftGroups(limits, drafts)
  {
    hide Greedy, Weight;
    groups := [];
    var current: seq<D> := [];
    var currentSize := 0;
    WeightOfNone(limits);
    assert drafts[..0] == [];
    for i := 0 to |drafts|
      invariant current != [] ==> Greedy(limits, drafts[..i]) == groups + [current] && !Full(limits, current)
      invariant current == [] ==> Greedy(limits, drafts[..i]) == groups
      invariant current == [] && groups != [] ==> Full(limits, groups[|groups| - 1])
      invariant currentSize == Weight(limits, current)
    {
      var draft := drafts[i];
      assert drafts[..i + 1] == drafts[..i] + [draft];
      GreedyMore(limits, drafts[..i], draft);
      var size := limits.size(draft);
      if current != [] && currentSize + size > limits.maxChars {
        groups := groups + [current];
        current := [];
        currentSize := 0;
        WeightOfNone(limits);
      }
      WeightMore(limits, current, draft);
      assert (groups + [current])[..|groups|] == groups && (current == [] ==> current + [draft] == [draft]);
      current := current + [draft];
      currentSize := currentSize + size;
      if limits.most.Some? && |current| >= limits.most.value {
        groups := groups + [current];
        current := [];
        currentSize := 0;
        WeightOfNone(limits);
      }
    }
    assert drafts[..|drafts|] == drafts;
    if current != [] {
      groups := groups + [current];
    }
    if |groups| == |drafts| && AllSingle(groups) {
      groups := PairUp(drafts);
    }
  }

  // ----- reducing to one result, whatever the model answers -----

  /** One reply per group, in order, until one fails; a reply may depend on the pass, the group's place and the group. */
  function Replies<D>(groups: seq<seq<D>>, reply: (nat, nat, seq<D>) -> Result<D>, pass: nat): (r: Result<seq<D>>)
    ensures r.Success? ==> |r.value| == |groups|
  {
    if groups == [] then Success([])
    else
      match Replies(groups[..|groups| - 1], reply, pass)
      case Failure(error) => Failure(error)
      case Success(done) =>
        match reply(pass, |groups| - 1, groups[|groups| - 1])
        case Failure(error) => Failure(error)
        case Success(draft) => Success(done + [draft])
  }

  /** The replies are those of the groups in order, and the first one that fails is the error of the pass. */
  lemma {:induction false} RepliesAre<D>(groups: seq<seq<D>>, reply: (nat, nat, seq<D>) -> Result<D>, pass: nat)
    ensures Replies(groups, reply, pass).Success? <==> forall k :: 0 <= k < |groups| ==> reply(pass, k, groups[k]).Success?
    ensures Replies(groups, reply, pass).Success? ==>
              forall k :: 0 <= k < |groups| ==> reply(pass, k, groups[k]) == Success(Replies(groups, reply, pass).value[k])
    ensures Replies(groups, reply, pass).Failure? ==>
              exists k :: 0 <= k < |groups| && reply(pass, k, groups[k]) == Failure(Replies(groups, reply, pass).error)
                          && forall j :: 0 <= j < k ==> reply(pass, j, groups[j]).Success?
  {
    if groups != [] {
      var n := |groups| - 1;
      RepliesAre(groups[..n], reply, pass);
      if Replies(groups[..n], reply, pass).Success? && reply(pass, n, groups[n]).Failure? {
        assert reply(pass, n, groups[n]) == Failure(Replies(groups, reply, pass).error);
      }
    }
  }

  /** Passes until one draft is left; they end because every pass leaves fewer drafts. */
  function Reduced<D>(limits: Limits<D>, drafts: seq<D>, reply: (nat, nat, seq<D>) -> Result<D>, pass: nat): Result<D>
    requires drafts != []
    decreases |drafts|
  {
    if |drafts| == 1 then Success(drafts[0])
    else
      GroupingShrinks(limits, drafts);
      match Replies(DraftGroups(limits, drafts), reply, pass)
      case Failure(error) => Failure(error)
      case Success(next) => Reduced(limits, next, reply, pass + 1)
  }

  ghost predicate NeverFails<D(!new)>(reply: (nat, nat, seq<D>) -> Result<D>) {
    forall pass: nat, k: nat, group: seq<D> :: reply(pass, k, group).Success?
  }

  method AskEach<D>(groups: seq<seq<D>>, reply: (nat, nat, seq<D>) -> Result<D>, pass: nat) returns (r: Result<seq<D>>)
    ensures r == Replies(groups, reply, pass)
  {
    var done: seq<D> := [];
    for k := 0 to |groups|
      invariant Replies(groups[..k], reply, pass) == Success(done)
    {
      assert groups[..k + 1][..k] == groups[..k];
      var answer := reply(pass, k, groups[k]);
      if answer.Failure? {
        FailsEarly(groups, reply, pass, k + 1);
        return Failure(answer.error);
      }
      done := done + [answer.value];
    }
    assert groups[..|groups|] == groups;
    r := Success(done);
  }

  lemma {:induction false} FailsEarly<D>(groups: seq<seq<D>>, reply: (nat, nat, seq<D>) -> Result<D>, pass: nat, k: nat)
    requires k <= |groups| && Replies(groups[..k], reply, pass).Failure?
    ensures Replies(groups, reply, pass) == Replies(groups[..k], reply, pass)
    decreases |groups|
  {
    if k == |groups| {
      assert groups[..k] == groups;
    } else {
      assert groups[..|groups| - 1][..k] == groups[..k];
      FailsEarly(groups[..|groups| - 1], reply, pass, k);
    }
  }

  /** The analysis' reduce loop has no bound on its passes and needs none. */
  method Reduce<D>(limits: Limits<D>, partials: seq<D>, reply: (nat, nat, seq<D>) -> Result<D>)
    returns (r: Result<D>, passes: nat)
    requires ValidLimits(limits) && partials != []
    ensures r == Reduced(limits, partials, reply, 0)
    ensures passes < |partials|
  {
    var drafts := partials;
    passes := 0;
    while |drafts| > 1
      invariant drafts != [] && passes + |drafts| <= |partials|
      invariant Reduced(limits, drafts, reply, passes) == Reduced(limits, partials, reply, 0)
      decreases |drafts|
    {
      GroupingShrinks(limits, drafts);
      var groups := GroupDrafts(limits, drafts);
      var answers := AskEach(groups, reply, passes);
      if answers.Failure? {
        return Failure(answers.error), passes;
      }
      drafts := answers.value;
      passes := passes + 1;
    }
    r := Success(drafts[0]);
  }

  /** As long as the model answers at all, there is one result in the end. */
  lemma {:induction false} ReductionEndsInOne<D(!new)>(limits: Limits<D>, drafts: seq<D>, reply: (nat, nat, seq<D>) -> Result<D>, pass: nat)
    requires drafts != [] && NeverFails(reply)
    ensures Reduced(limits, drafts, reply, pass).Success?
    decreases |drafts|
  {
    hide DraftGroups;
    if |drafts| > 1 {
      GroupingShrinks(limits, drafts);
      RepliesCome(DraftGroups(limits, drafts), reply, pass);
      ReductionEndsInOne(limits, Replies(DraftGroups(limits, drafts), reply, pass).value, reply, pass + 1);
    }
  }

  lemma {:induction false} RepliesCome<D(!new)>(groups: seq<seq<D>>, reply: (nat, nat, seq<D>) -> Result<D>, pass: nat)
    requires NeverFails(reply)
    ensures Replies(groups, reply, pass).Success?
  {
    if groups != [] {
      RepliesCome(groups[..|groups| - 1], reply, pass);
    }
  }

  // ----- the day's bounded reduction -----

  /** The partial day summaries after n passes. */
  function AfterPasses<D>(limits: Limits<D>, drafts: seq<D>, reply: (nat, nat, seq<D>) -> Result<D>, n: nat): Result<seq<D>> {
    if n == 0 then Success(drafts)
    else
      match AfterPasses(limits, drafts, reply, n - 1)
      case Failure(error) => Failure(error)
      case Success(before) =>
        if |before| == 1 then Success(before) else Replies(DraftGroups(limits, before), reply, n - 1)
  }

  function DayResult<D>(limits: Limits<D>, drafts: seq<D>, reply: (nat, nat, seq<D>) -> Result<D>): Result<D> {
    match AfterPasses(limits, drafts, reply, MAX_REDUCE_PASSES)
    case Failure(error) => Failure(error)
    case Success(left) => if |left| == 1 then Success(left[0]) else Failure("lmstudio_daily_summary_not_converging")
  }

  method ReduceDay<D>(limits: Limits<D>, partials: seq<D>, reply: (nat, nat, seq<D>) -> Result<D>) returns (r: Result<D>)
    requires ValidLimits(limits)
    ensures r == DayResult(limits, partials, reply)
  {
    hide DraftGroups, Replies;
    var drafts := partials;
    for pass := 0 to MAX_REDUCE_PASSES
      invariant AfterPasses(limits, partials, reply, pass) == Success(drafts)
    {
      if |drafts| == 1 {
        SettledStays(limits, partials, reply, pass, MAX_REDUCE_PASSES);
        break;
      }
      var groups := GroupDrafts(limits, drafts);
      var answers := AskEach(groups, reply, pass);
      if answers.Failure? {
        FailedStays(limits, partials, reply, pass + 1, MAX_REDUCE_PASSES);
        return Failure(answers.error);
      }
      drafts := answers.value;
    }
    if |drafts| != 1 {
      return Failure("lmstudio_daily_summary_not_converging");
    }
    r := Success(drafts[0]);
  }

  lemma {:induction false} SettledStays<D>(limits: Limits<D>, drafts: seq<D>, reply: (nat, nat, seq<D>) -> Result<D>, n: nat, m: nat)
    requires n <= m && AfterPasses(limits, drafts, reply, n).Success? && |AfterPasses(limits, drafts, reply, n).value| == 1
    ensures AfterPasses(limits, drafts, reply, m) == AfterPasses(limits, drafts, reply, n)
  {
    hide DraftGroups, Replies;
    if n < m {
      SettledStays(limits, drafts, reply, n, m - 1);
    }
  }

  lemma {:induction false} FailedStays<D>(limits: Limits<D>, drafts: seq<D>, reply: (nat, nat, seq<D>) -> Result<D>, n: nat, m: nat)
    requires n <= m && AfterPasses(limits, drafts, reply, n).Failure?
    ensures AfterPasses(limits, drafts, reply, m) == AfterPasses(limits, drafts, reply, n)
  {
    hide DraftGroups, Replies;
    if n < m {
      FailedStays(limits, drafts, reply, n, m - 1);
    }
  }

  /** Each pass takes away at least one draft; that is all it is sure to do. */
  lemma {:induction false} PassesShrink<D(!new)>(limits: Limits<D>, drafts: seq<D>, reply: (nat, nat, seq<D>) -> Result<D>, n: nat)
    requires drafts != [] && NeverFails(reply)
    ensures var left := AfterPasses(limits, drafts, reply, n);
            left.Success? && 1 <= |left.value| && (|left.value| == 1 || |left.value| + n <= |drafts|)
  {
    hide DraftGroups, NeverFails;
    if n > 0 {
      PassesShrink(limits, drafts, reply, n - 1);
      var before := AfterPasses(limits, drafts, reply, n - 1).value;
      GroupingShrinks(limits, before);
      RepliesCome(DraftGroups(limits, before), reply, n - 1);
    }
  }

  /** Up to seven partial summaries always come down to one. */
  lemma SevenAlwaysConverge<D(!new)>(limits: Limits<D>, drafts: seq<D>, reply: (nat, nat, seq<D>) -> Result<D>)
    requires 1 <= |drafts| <= MAX_REDUCE_PASSES + 1 && NeverFails(reply)
    ensures DayResult(limits, drafts, reply).Success?
  {
    hide AfterPasses;
    PassesShrink(limits, drafts, reply, MAX_REDUCE_PASSES);
  }

  // ----- from eight on, some days do not converge -----

  /** Two small partial summaries fill a request between them; any other two are too much for one. */
  predicate Tight<D>(limits: Limits<D>, small: D, large: D) {
    && limits.most.None?
    && 2 * limits.size(small) <= limits.maxChars
    && limits.maxChars < 2 * limits.size(small) + limits.size(large)
    && limits.maxChars < 2 * limits.size(large)
  }

  /** Two small ones first, then only large ones. */
  function Slow<D>(small: D, large: D, n: nat): (drafts: seq<D>)
    ensures |drafts| == n && forall i :: 0 <= i < n ==> drafts[i] == if i < 2 then small else large
  {
    seq(n, i requires 0 <= i < n => if i < 2 then small else large)
  }

  /** The model answers the first two requests of a pass briefly and the others at length. */
  function SlowReply<D>(small: D, large: D): (nat, nat, seq<D>) -> Result<D> {
    (pass, k, group) => Success(if k < 2 then small else large)
  }

  function SlowGroups<D>(small: D, large: D, n: nat): (groups: seq<seq<D>>)
    requires n >= 2
    ensures |groups| == n - 1 && groups[0] == [small, small]
    ensures forall k :: 1 <= k < |groups| ==> groups[k] == [large]
  {
    seq(n - 1, k requires 0 <= k < n - 1 => if k == 0 then [small, small] else [large])
  }

  lemma SlowStart<D>(limits: Limits<D>, small: D, large: D)
    requires Tight(limits, small, large)
    ensures Greedy(limits, Slow(small, large, 2)) == SlowGroups(small, large, 2)
  {
    var one, two := Slow(small, large, 1), Slow(small, large, 2);
    assert one == [] + [small] && two == one + [small];
    WeightOfNone(limits);
    GreedyMore(limits, [], small);
    GreedyMore(limits, one, small);
    WeightOfOne(limits, small);
    assert [] + [[small]] == [[small]] && [[small]][..0] == [] && [small] + [small] == [small, small];
  }

  /** The last group so far leaves no room for a large partial. */
  lemma SlowLastIsFull<D>(limits: Limits<D>, small: D, large: D, n: nat)
    requires Tight(limits, small, large) && n >= 2
    ensures !Joins(limits, SlowGroups(small, large, n)[n - 2], large)
  {
    if n == 2 {
      WeightOfOne(limits, small);
      WeightMore(limits, [small], small);
      assert [small] + [small] == [small, small];
    } else {
      WeightOfOne(limits, large);
    }
  }

  lemma {:induction false} SlowGroupsAreGreedy<D>(limits: Limits<D>, small: D, large: D, n: nat)
    requires Tight(limits, small, large) && n >= 2
    ensures Greedy(limits, Slow(small, large, n)) == SlowGroups(small, large, n)
  {
    hide Weight, Joins, Greedy, Tight;
    if n == 2 {
      SlowStart(limits, small, large);
    } else {
      SlowGroupsAreGreedy(limits, small, large, n - 1);
      SlowLastIsFull(limits, small, large, n - 1);
      GreedyMore(limits, Slow(small, large, n - 1), large);
      assert Slow(small, large, n) == Slow(small, large, n - 1) + [large];
      assert SlowGroups(small, large, n) == SlowGroups(small, large, n - 1) + [[large]];
    }
  }

  lemma {:induction false} SlowReplies<D>(groups: seq<seq<D>>, small: D, large: D, pass: nat)
    ensures Replies(groups, SlowReply(small, large), pass) == Success(Slow(small, large, |groups|))
  {
    if groups != [] {
      var k := |groups| - 1;
      SlowReplies(groups[..k], small, large, pass);
      assert Slow(small, large, k + 1) == Slow(small, large, k) + [if k < 2 then small else large];
    } else {
      assert Slow(small, large, 0) == [];
    }
  }

  lemma SlowPass<D>(limits: Limits<D>, small: D, large: D, n: nat, pass: nat)
    requires Tight(limits, small, large) && n >= 3
    ensures Replies(DraftGroups(limits, Slow(small, large, n)), SlowReply(small, large), pass)
         == Success(Slow(small, large, n - 1))
  {
    hide Greedy, Replies, Slow, Tight, SlowReply;
    SlowGroupsAreGreedy(limits, small, large, n);
    SlowReplies(SlowGroups(small, large, n), small, large, pass);
  }

  lemma {:induction false} SlowPasses<D>(limits: Limits<D>, small: D, large: D, n: nat, passes: nat)
    requires Tight(limits, small, large) && n >= passes + 2
    ensures AfterPasses(limits, Slow(small, large, n), SlowReply(small, large), passes)
         == Success(Slow(small, large, n - passes))
  {
    hide DraftGroups, Replies, Slow, SlowReply, Tight;
    if passes > 0 {
      SlowPasses(limits, small, large, n, passes - 1);
      SlowPass(limits, small, large, n - (passes - 1), passes - 1);
    }
  }

  /** Given two such sizes, any number of partial summaries above seven may not converge. */
  lemma EightMayNotConverge<D(!new)>(limits: Limits<D>, small: D, large: D, n: nat)
    requires Tight(limits, small, large) && n > MAX_REDUCE_PASSES + 1
    ensures NeverFails(SlowReply(small, large))
    ensures DayResult(limits, Slow(small, large, n), SlowReply(small, large))
         == Failure("lmstudio_daily_summary_not_converging")
  {
    hide AfterPasses, Tight;
    SlowPasses(limits, small, large, n, MAX_REDUCE_PASSES);
  }
}
