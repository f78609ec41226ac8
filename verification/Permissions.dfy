/** Permission requests and questions of one session
    (worker-claude/src/sdk/permissions.py).

    `pending` and `asked` are the two dictionaries' keys in insertion order; the futures
    behind them are `verdicts` and `answers`, which outlive their entries.  Tool-use ids are
    the agent's and occur once. */
module Permissions {
  import opened Wrappers

  type Id = string

  datatype Verdict = Undecided | Allowed | Denied(reason: string)

  datatype Question = Question(text: string, options: seq<string>)

  datatype Prompt = Prompt(session: string, questions: seq<Question>)

  datatype Broker = Broker(
    auto: bool, once: bool, pending: seq<Id>, verdicts: map<Id, Verdict>,
    asked: seq<Id>, prompts: map<Id, Prompt>, answers: map<Id, Option<seq<string>>>)

  const EMPTY := Broker(false, false, [], map[], [], map[], map[])

  // ----- steps -----

  function Request(b: Broker, id: Id): Broker {
    if b.auto || b.once then b.(verdicts := b.verdicts[id := Allowed])
    else b.(pending := b.pending + [id], verdicts := b.verdicts[id := Undecided])
  }

  predicate Decidable(b: Broker, id: Id) {
    id in b.pending && id in b.verdicts && b.verdicts[id] == Undecided
  }

  function Resolve(b: Broker, id: Id, allow: bool, reason: string): Broker {
    if !Decidable(b, id) then b
    else
      var denied := Denied(if reason == "" then "Denied by user" else reason);
      b.(verdicts := b.verdicts[id := if allow then Allowed else denied])
  }

  function Drop(ids: seq<Id>, id: Id): (r: seq<Id>)
    ensures forall x :: x in r <==> x in ids && x != id
  {
    if ids == [] then [] else if ids[0] == id then Drop(ids[1..], id) else [ids[0]] + Drop(ids[1..], id)
  }

  /** The tool call goes on with its verdict. */
  function Return(b: Broker, id: Id): Broker {
    if id in b.verdicts && b.verdicts[id] != Undecided then b.(pending := Drop(b.pending, id)) else b
  }

  function Ask(b: Broker, id: Id, p: Prompt): Broker {
    b.(asked := b.asked + [id], prompts := b.prompts[id := p], answers := b.answers[id := None])
  }

  /** One answer per question: missing ones are empty, surplus ones dropped. */
  function Normalized(answers: seq<string>, n: nat): (r: seq<string>)
    ensures |r| == n
    ensures forall i :: 0 <= i < n ==> r[i] == if i < |answers| then answers[i] else ""
  {
    seq(n, i requires 0 <= i < n => if i < |answers| then answers[i] else "")
  }

  predicate Open(b: Broker, id: Id) {
    id in b.asked && id in b.prompts && id in b.answers && b.answers[id] == None
  }

  function Answer(b: Broker, id: Id, given: seq<string>): Broker {
    if !Open(b, id) then b
    else b.(answers := b.answers[id := Some(Normalized(given, |b.prompts[id].questions|))])
  }

  /** The question's tool call goes on; if it was cancelled instead, with empty answers. */
  function Continue(b: Broker, id: Id): Broker {
    var done := Answer(b, id, []);
    done.(asked := Drop(b.asked, id), prompts := b.prompts - {id})
  }

  function CancelPermissions(b: Broker, reason: string): Broker {
    b.(pending := [],
       verdicts := map id | id in b.verdicts :: if Decidable(b, id) then Denied(reason) else b.verdicts[id])
  }

  function CancelAll(b: Broker, reason: string): Broker {
    CancelPermissions(b, reason).(
      asked := [], prompts := map[],
      answers := map id | id in b.answers ::
        if Open(b, id) then Some(Normalized([], |b.prompts[id].questions|)) else b.answers[id])
  }

  /** What a reconnecting client is sent: the questions still open, in the order asked. */
  function Resent(b: Broker, ids: seq<Id>): seq<(Id, Prompt)> {
    if ids == [] then []
    else
      var before := Resent(b, ids[..|ids| - 1]);
      var id := ids[|ids| - 1];
      if Open(b, id) then before + [(id, b.prompts[id])] else before
  }

  /** A session is parked muted when its client disconnects, and with its output still
      delivered when the client merely switches to another session. */
  datatype Step =
    | DoSetAuto(value: bool)
    | DoArm
    | DoDisarm
    | DoRequest(id: Id)
    | DoResolve(id: Id, allow: bool, reason: string)
    | DoReturn(id: Id)
    | DoAsk(id: Id, prompt: Prompt)
    | DoAnswer(id: Id, given: seq<string>)
    | DoContinue(id: Id)
    | DoPark(muted: bool, reason: string)
    | DoReattach
    | DoCancelAll(reason: string)

  function Do(b: Broker, step: Step): Broker {
    match step
    case DoSetAuto(value) => b.(auto := value)
    case DoArm => b.(once := true)
    case DoDisarm => b.(once := false)
    case DoRequest(id) => if id in b.verdicts then b else Request(b, id)
    case DoResolve(id, allow, reason) => Resolve(b, id, allow, reason)
    case DoReturn(id) => Return(b, id)
    case DoAsk(id, prompt) => if id in b.answers then b else Ask(b, id, prompt)
    case DoAnswer(id, given) => Answer(b, id, given)
    case DoContinue(id) => Continue(b, id)
    case DoPark(_, reason) => CancelPermissions(b, reason)
    case DoReattach => b
    case DoCancelAll(reason) => CancelAll(b, reason)
  }

  function Final(run: seq<Step>): Broker {
    if run == [] then EMPTY else Do(Final(run[..|run| - 1]), run[|run| - 1])
  }

  // ----- the invariant -----

  /** Whoever still waits is in the broker's tables: undecided requests are pending, unanswered
      questions are there with their prompt. */
  ghost predicate Inv(b: Broker) {
    && (forall id :: id in b.verdicts && b.verdicts[id] == Undecided ==> id in b.pending)
    && (forall id :: id in b.answers && b.answers[id] == None ==> id in b.asked && id in b.prompts)
    && (forall id :: id in b.asked || id in b.prompts ==> id in b.answers)
    && (forall id :: id in b.asked <==> id in b.prompts)
    && Distinct(b.asked)
  }

  predicate Distinct(ids: seq<Id>) { forall i, j :: 0 <= i < j < |ids| ==> ids[i] != ids[j] }

  lemma {:induction false} DropKeepsDistinct(ids: seq<Id>, id: Id)
    requires Distinct(ids)
    ensures Distinct(Drop(ids, id))
  {
    if ids != [] {
      DropKeepsDistinct(ids[1..], id);
      var rest := Drop(ids[1..], id);
      assert ids[0] !in ids[1..];
      assert forall j :: 0 <= j < |rest| ==> rest[j] in rest;
    }
  }

  lemma AnswerKeepsInv(b: Broker, id: Id, given: seq<string>)
    requires Inv(b)
    ensures Inv(Answer(b, id, given))
  {
    hide Normalized, Distinct;
  }

  lemma ContinueKeepsInv(b: Broker, id: Id)
    requires Inv(b)
    ensures Inv(Continue(b, id))
  {
    hide Normalized, Distinct, Drop;
    AnswerKeepsInv(b, id, []);
    var done := Answer(b, id, []);
    assert id in done.answers ==> done.answers[id] != None;
    DropKeepsDistinct(b.asked, id);
  }

  lemma CancelKeepsInv(b: Broker, reason: string)
    requires Inv(b)
    ensures Inv(CancelPermissions(b, reason)) && Inv(CancelAll(b, reason))
  {
    hide Normalized, Distinct;
    NoneDistinct();
  }

  lemma NoneDistinct()
    ensures Distinct([])
  {
  }

  lemma AskKeepsInv(b: Broker, id: Id, p: Prompt)
    requires Inv(b) && id !in b.answers
    ensures Inv(Ask(b, id, p))
  {
  }

  lemma StepKeepsInv(b: Broker, step: Step)
    requires Inv(b)
    ensures Inv(Do(b, step))
  {
    hide Distinct, Continue, Ask, Answer, CancelPermissions, CancelAll;
    match step
    case DoAsk(id, prompt) => if id !in b.answers { AskKeepsInv(b, id, prompt); }
    case DoAnswer(id, given) => AnswerKeepsInv(b, id, given);
    case DoContinue(id) => ContinueKeepsInv(b, id);
    case DoPark(_, reason) => CancelKeepsInv(b, reason);
    case DoCancelAll(reason) => CancelKeepsInv(b, reason);
    case _ =>
  }

  lemma {:induction false} RunKeepsInv(run: seq<Step>)
    ensures Inv(Final(run))
  {
    if run != [] {
      RunKeepsInv(run[..|run| - 1]);
      StepKeepsInv(Final(run[..|run| - 1]), run[|run| - 1]);
    }
  }

  // ----- auto-approval, and who is pending -----

  /** What the user last chose for the whole session. */
  predicate AutoAfter(run: seq<Step>) {
    run != [] && if run[|run| - 1].DoSetAuto? then run[|run| - 1].value else AutoAfter(run[..|run| - 1])
  }

  /** A prompt asked for approval and its turn is not over. */
  predicate ArmedAfter(run: seq<Step>) {
    run != [] && !run[|run| - 1].DoDisarm? && (run[|run| - 1].DoArm? || ArmedAfter(run[..|run| - 1]))
  }

  lemma FlagsByStep(b: Broker, step: Step)
    ensures Do(b, step).auto == if step.DoSetAuto? then step.value else b.auto
    ensures Do(b, step).once <==> !step.DoDisarm? && (step.DoArm? || b.once)
  {
    hide Normalized, Drop;
  }

  /** Over any run: what the user last chose stands, and a prompt's approval lasts exactly until
      its turn is over. */
  lemma {:induction false} ApprovalFollows(run: seq<Step>)
    ensures Final(run).auto == AutoAfter(run) && Final(run).once == ArmedAfter(run)
  {
    hide Do;
    if run != [] {
      ApprovalFollows(run[..|run| - 1]);
      FlagsByStep(Final(run[..|run| - 1]), run[|run| - 1]);
    }
  }

  /** The request's entry goes when its tool call goes on with a verdict, or all are denied. */
  predicate Departs(b: Broker, step: Step, id: Id) {
    match step
    case DoReturn(x) => x == id && id in b.verdicts && b.verdicts[id] != Undecided
    case DoPark(_, _) => true
    case DoCancelAll(_) => true
    case _ => false
  }

  lemma PendingByStep(b: Broker, step: Step, id: Id)
    ensures id in Do(b, step).pending <==>
              (step == DoRequest(id) && id !in b.verdicts && !b.auto && !b.once)
              || (id in b.pending && !Departs(b, step, id))
  {
    hide Normalized;
  }

  ghost predicate RaisedAndStays(run: seq<Step>, k: int, id: Id) {
    && RaisesAt(run, k, id)
    && forall j :: k < j < |run| && 0 <= j ==> !DepartsAt(run, j, id)
  }

  ghost predicate DepartsAt(run: seq<Step>, j: int, id: Id)
    requires 0 <= j < |run|
  {
    Departs(Final(run[..j]), run[j], id)
  }

  /** Over any run: a request has an entry exactly if it was raised, and since then neither its
      tool call went on nor everything was denied. */
  lemma {:induction false} PendingIff(run: seq<Step>, id: Id)
    ensures id in Final(run).pending <==> exists k :: RaisedAndStays(run, k, id)
  {
    hide Do, Departs;
    if run != [] {
      var n := |run| - 1;
      var init := run[..n];
      PendingIff(init, id);
      PendingByStep(Final(init), run[n], id);
      assert forall k :: 0 <= k < n ==> init[..k] == run[..k] && init[k] == run[k];
      assert forall k :: 0 <= k < n ==> (DepartsAt(init, k, id) <==> DepartsAt(run, k, id));
      if k :| RaisedAndStays(init, k, id) {
        if !DepartsAt(run, n, id) { assert RaisedAndStays(run, k, id); }
      }
      if RaisesAt(run, n, id) { assert RaisedAndStays(run, n, id); }
      if k :| RaisedAndStays(run, k, id) {
        if k < n { assert RaisedAndStays(init, k, id) && !DepartsAt(run, n, id); }
      }
    } else {
      NothingRaised(id);
    }
  }

  lemma NothingRaised(id: Id)
    ensures id !in EMPTY.pending && forall k :: !RaisedAndStays([], k, id)
  {
  }

  // ----- parking and teardown -----

  /** Parking leaves no tool call waiting for a permission, and every question as it was. */
  lemma ParkingDeniesAndKeeps(run: seq<Step>, reason: string, id: Id)
    ensures var b := Final(run); var parked := CancelPermissions(b, reason);
      && (id in b.verdicts ==>
            parked.verdicts[id] == if b.verdicts[id] == Undecided then Denied(reason) else b.verdicts[id])
      && (Open(parked, id) <==> Open(b, id)) && parked.answers == b.answers
      && Resent(parked, parked.asked) == Resent(b, b.asked)
  {
    hide Final;
    RunKeepsInv(run);
    SameResent(Final(run), CancelPermissions(Final(run), reason), Final(run).asked);
  }

  lemma {:induction false} SameResent(a: Broker, b: Broker, ids: seq<Id>)
    requires a.asked == b.asked && a.prompts == b.prompts && a.answers == b.answers
    ensures Resent(a, ids) == Resent(b, ids)
  {
    if ids != [] { SameResent(a, b, ids[..|ids| - 1]); }
  }

  /** Teardown leaves nobody waiting: requests are denied, and every open question gets one
      empty answer per question. */
  lemma TeardownReleasesEveryone(run: seq<Step>, reason: string, id: Id)
    ensures var b := Final(run); var torn := CancelAll(b, reason);
      && (id in torn.verdicts ==> torn.verdicts[id] != Undecided)
      && (id in torn.answers ==> torn.answers[id] != None)
      && (Open(b, id) ==> torn.answers[id] == Some(Normalized([], |b.prompts[id].questions|)))
  {
    hide Final, Normalized;
    RunKeepsInv(run);
  }

  // ----- permissions -----

  predicate MayRun(b: Broker, id: Id) { id in b.verdicts && b.verdicts[id] == Allowed }

  /** The request comes in under auto-approval, or the user allows it while it is open. */
  predicate Grants(b: Broker, step: Step, id: Id) {
    || (step == DoRequest(id) && id !in b.verdicts && (b.auto || b.once))
    || (step.DoResolve? && step.id == id && step.allow && Decidable(b, id))
  }

  lemma MayRunByStep(b: Broker, step: Step, id: Id)
    ensures MayRun(Do(b, step), id) <==> MayRun(b, id) || Grants(b, step, id)
  {
    hide Normalized, Drop;
  }

  ghost predicate GrantedIn(run: seq<Step>, id: Id) {
    exists k :: 0 <= k < |run| && Grants(Final(run[..k]), run[k], id)
  }

  lemma GrantedInStep(run: seq<Step>, id: Id)
    requires run != []
    ensures var init := run[..|run| - 1];
      GrantedIn(run, id) <==> GrantedIn(init, id) || Grants(Final(init), run[|run| - 1], id)
  {
    hide Final, Grants;
    var n := |run| - 1;
    var init := run[..n];
    assert forall k :: 0 <= k < n ==> init[..k] == run[..k] && init[k] == run[k];
    if GrantedIn(init, id) {
      var k :| 0 <= k < n && Grants(Final(init[..k]), init[k], id);
      assert Grants(Final(run[..k]), run[k], id);
    }
    if GrantedIn(run, id) {
      var k :| 0 <= k < |run| && Grants(Final(run[..k]), run[k], id);
      if k < n { assert Grants(Final(init[..k]), init[k], id); }
    }
  }

  /** A tool may run if and only if auto-approval was on when it asked, or the user allowed
      it while it was waiting. */
  lemma {:induction false} MayRunIffGranted(run: seq<Step>, id: Id)
    ensures MayRun(Final(run), id) <==> GrantedIn(run, id)
  {
    hide Do, Grants;
    if run == [] {
      NothingGranted(run, id);
    } else {
      hide MayRun, GrantedIn;
      MayRunIffGranted(run[..|run| - 1], id);
      MayRunByStep(Final(run[..|run| - 1]), run[|run| - 1], id);
      GrantedInStep(run, id);
    }
  }

  lemma NothingGranted(run: seq<Step>, id: Id)
    requires run == []
    ensures !GrantedIn(run, id)
  {
  }

  // ----- questions -----

  ghost predicate Sends(b: Broker, id: Id, p: Prompt) { (id, p) in Resent(b, b.asked) }

  lemma {:induction false} ResentIff(b: Broker, ids: seq<Id>, id: Id, p: Prompt)
    ensures (id, p) in Resent(b, ids) <==> id in ids && Open(b, id) && b.prompts[id] == p
  {
    hide Open;
    if ids != [] {
      ResentIff(b, ids[..|ids| - 1], id, p);
      assert ids == ids[..|ids| - 1] + [ids[|ids| - 1]];
    }
  }

  /** A reconnecting client is sent exactly the unanswered questions. */
  lemma ResendsTheUnanswered(run: seq<Step>, id: Id)
    ensures var b := Final(run);
      (exists p :: Sends(b, id, p)) <==> id in b.answers && b.answers[id] == None
  {
    hide Final, Resent;
    var b := Final(run);
    RunKeepsInv(run);
    forall p ensures Sends(b, id, p) <==> Open(b, id) && b.prompts[id] == p {
      ResentIff(b, b.asked, id, p);
    }
    if Open(b, id) { assert Sends(b, id, b.prompts[id]); }
  }

  /** One answer per question: the given ones in order, blanks for what is missing, and
      surplus ones dropped. */
  ghost predicate Told(answers: seq<string>, given: seq<string>, n: nat) {
    |answers| == n && forall i :: 0 <= i < n ==> answers[i] == if i < |given| then given[i] else ""
  }

  /** What the user gives for an open question is what the agent is told. */
  lemma GivenAnswersArrive(run: seq<Step>, id: Id, given: seq<string>)
    requires Open(Final(run), id)
    ensures var told := Do(Final(run), DoAnswer(id, given)).answers[id];
      told.Some? && Told(told.value, given, |Final(run).prompts[id].questions|)
  {
    hide Final;
  }

  /** The user answers, or the question's tool call goes on without an answer. */
  predicate Settles(step: Step, id: Id) {
    match step
    case DoAnswer(x, _) => x == id
    case DoContinue(x) => x == id
    case DoCancelAll(_) => true
    case _ => false
  }

  function GivenBy(step: Step): seq<string> { if step.DoAnswer? then step.given else [] }

  /** The first step from i on that settles the question, or the length. */
  function FirstSettling(run: seq<Step>, i: nat, id: Id): (j: nat)
    requires i <= |run|
    ensures i <= j <= |run| && (j < |run| ==> Settles(run[j], id))
    ensures forall k :: i <= k < j ==> !Settles(run[k], id)
    decreases |run| - i
  {
    if i == |run| || Settles(run[i], id) then i else FirstSettling(run, i + 1, id)
  }

  ghost predicate AsksAt(run: seq<Step>, k: int, id: Id, p: Prompt) {
    0 <= k < |run| && run[k] == DoAsk(id, p) && id !in Final(run[..k]).answers
  }

  /** From the time a question is asked it stays open with the same prompt until the first step
      that settles it; from then on it has that step's answers, whatever comes later. */
  lemma {:induction false} AnswersFitQuestions(run: seq<Step>, k: nat, id: Id, p: Prompt)
    requires AsksAt(run, k, id, p)
    ensures var b, j := Final(run), FirstSettling(run, k + 1, id);
      && id in b.answers
      && (j == |run| ==> b.answers[id] == None && Sends(b, id, p))
      && (j < |run| ==> b.answers[id].Some? && Told(b.answers[id].value, GivenBy(run[j]), |p.questions|))
  {
    FitsByRun(run, k, id, p);
    var b := Final(run);
    RunKeepsInv(run);
    ResentIff(b, b.asked, id, p);
  }

  /** The agent is told nothing but blanks exactly if its tool call went on first, or the user
      gave only blanks. */
  lemma BlankIff(run: seq<Step>, k: nat, id: Id, p: Prompt)
    requires AsksAt(run, k, id, p) && FirstSettling(run, k + 1, id) < |run|
    ensures var b, step := Final(run), run[FirstSettling(run, k + 1, id)];
      id in b.answers && b.answers[id].Some? &&
      ((forall x :: x in b.answers[id].value ==> x == "") <==>
       (step.DoAnswer? ==> forall i :: 0 <= i < |step.given| && i < |p.questions| ==> step.given[i] == ""))
  {
    hide Final, AsksAt, FirstSettling;
    AnswersFitQuestions(run, k, id, p);
    var told, step := Final(run).answers[id].value, run[FirstSettling(run, k + 1, id)];
    assert forall i :: 0 <= i < |told| ==> told[i] in told;
  }

  /** Open with its prompt, or settled with these answers. */
  ghost predicate Fits(b: Broker, id: Id, p: Prompt, given: Option<seq<string>>) {
    && id in b.answers
    && if given.None? then b.answers[id] == None && id in b.prompts && b.prompts[id] == p
       else b.answers[id].Some? && Told(b.answers[id].value, given.value, |p.questions|)
  }

  lemma AnswerFits(b: Broker, x: Id, words: seq<string>, id: Id, p: Prompt, given: Option<seq<string>>)
    requires Inv(b) && Fits(b, id, p, given)
    ensures Fits(Answer(b, x, words), id, p, if given.None? && x == id then Some(words) else given)
  {
    hide Normalized, Distinct, Told;
    Padded(words, |p.questions|);
  }

  lemma ContinueFits(b: Broker, x: Id, id: Id, p: Prompt, given: Option<seq<string>>)
    requires Inv(b) && Fits(b, id, p, given)
    ensures Fits(Continue(b, x), id, p, if given.None? && x == id then Some([]) else given)
  {
    hide Answer, Drop, Inv, Told;
    AnswerFits(b, x, [], id, p, given);
    assert Continue(b, x).answers == Answer(b, x, []).answers;
    assert Answer(b, x, []).prompts == b.prompts by { AnswerIsLocal(b, x, []); }
  }

  lemma AnswerIsLocal(b: Broker, x: Id, words: seq<string>)
    ensures Answer(b, x, words).prompts == b.prompts
  {
    hide Normalized;
  }

  lemma CancelFits(b: Broker, reason: string, id: Id, p: Prompt, given: Option<seq<string>>)
    requires Inv(b) && Fits(b, id, p, given)
    ensures Fits(CancelAll(b, reason), id, p, if given.None? then Some([]) else given)
  {
    hide Normalized, Distinct, Told;
    Padded([], |p.questions|);
  }

  lemma FitsByStep(b: Broker, step: Step, id: Id, p: Prompt, given: Option<seq<string>>)
    requires Inv(b) && Fits(b, id, p, given)
    ensures Fits(Do(b, step), id, p, if given.None? && Settles(step, id) then Some(GivenBy(step)) else given)
  {
    hide Answer, Continue, CancelAll, Drop, Inv, Told;
    match step
    case DoAnswer(x, words) => AnswerFits(b, x, words, id, p, given);
    case DoContinue(x) => ContinueFits(b, x, id, p, given);
    case DoCancelAll(reason) => CancelFits(b, reason, id, p, given);
    case _ =>
  }

  lemma Padded(given: seq<string>, n: nat)
    ensures Told(Normalized(given, n), given, n)
  {
  }

  lemma {:induction false} FitsByRun(run: seq<Step>, k: nat, id: Id, p: Prompt)
    requires AsksAt(run, k, id, p)
    ensures var j := FirstSettling(run, k + 1, id);
      Fits(Final(run), id, p, if j < |run| then Some(GivenBy(run[j])) else None)
  {
    hide Fits, Inv, FirstSettling;
    var n := |run| - 1;
    var init := run[..n];
    RunKeepsInv(init);
    if k == n {
      AskFits(Final(init), id, p);
    } else {
      assert init[..k] == run[..k];
      var j := FirstSettling(init, k + 1, id);
      FitsByRun(init, k, id, p);
      FitsByStep(Final(init), run[n], id, p, if j < n then Some(GivenBy(run[j])) else None);
    }
  }

  lemma AskFits(b: Broker, id: Id, p: Prompt)
    requires id !in b.answers
    ensures Fits(Do(b, DoAsk(id, p)), id, p, None)
  {
  }

  // ----- verdicts -----

  /** A step that decides a request that waits, and how. */
  function Decision(step: Step, id: Id): Option<Verdict> {
    match step
    case DoResolve(x, allow, reason) =>
      if x != id then None
      else if allow then Some(Allowed)
      else if reason == "" then Some(Denied("Denied by user"))
      else Some(Denied(reason))
    case DoPark(_, reason) => Some(Denied(reason))
    case DoCancelAll(reason) => Some(Denied(reason))
    case _ => None
  }

  /** The first step from i on that decides, or the length. */
  function FirstDeciding(run: seq<Step>, i: nat, id: Id): (j: nat)
    requires i <= |run|
    ensures i <= j <= |run| && (j < |run| ==> Decision(run[j], id).Some?)
    ensures forall k :: i <= k < j ==> Decision(run[k], id).None?
    decreases |run| - i
  {
    if i == |run| || Decision(run[i], id).Some? then i else FirstDeciding(run, i + 1, id)
  }

  ghost predicate RaisesAt(run: seq<Step>, k: int, id: Id) {
    0 <= k < |run| && run[k] == DoRequest(id) && id !in Final(run[..k]).verdicts
      && !Final(run[..k]).auto && !Final(run[..k]).once
  }

  /** A request that was not approved at once waits until the first step that decides it, and
      that decision, with its reason, is final. */
  lemma {:induction false} FirstDecisionCounts(run: seq<Step>, k: nat, id: Id)
    requires RaisesAt(run, k, id)
    ensures var b, j := Final(run), FirstDeciding(run, k + 1, id);
      id in b.verdicts
      && b.verdicts[id] == if j < |run| then Decision(run[j], id).value else Undecided
  {
    hide Inv, FirstDeciding, Decision, Do;
    var n := |run| - 1;
    var init := run[..n];
    RunKeepsInv(init);
    if k == n {
      RaisedWaits(Final(init), id);
    } else {
      assert init[..k] == run[..k];
      FirstDecisionCounts(init, k, id);
      DecidedByStep(Final(init), run[n], id);
      DecisionsDecide(run, k + 1, id);
    }
  }

  lemma DecisionsDecide(run: seq<Step>, i: nat, id: Id)
    requires i <= |run|
    ensures var j := FirstDeciding(run, i, id); j < |run| ==> Decision(run[j], id).value != Undecided
  {
  }

  lemma RaisedWaits(b: Broker, id: Id)
    requires id !in b.verdicts && !b.auto && !b.once
    ensures var c := Do(b, DoRequest(id)); id in c.verdicts && c.verdicts[id] == Undecided
  {
  }

  lemma DecidedByStep(b: Broker, step: Step, id: Id)
    requires Inv(b) && id in b.verdicts
    ensures id in Do(b, step).verdicts
    ensures Do(b, step).verdicts[id] ==
            if b.verdicts[id] == Undecided && Decision(step, id).Some? then Decision(step, id).value
            else b.verdicts[id]
  {
    hide Normalized, Drop, Distinct;
  }

  // ----- what reaches a client -----

  datatype Delivery = Requested(id: Id) | Asked(id: Id, prompt: Prompt)

  /** Whether messages go to a client: not after a muted parking, until one reattaches. */
  predicate Online(run: seq<Step>) {
    run == [] || match run[|run| - 1]
                 case DoPark(muted, _) => !muted && Online(run[..|run| - 1])
                 case DoReattach => true
                 case _ => Online(run[..|run| - 1])
  }

  function Questions(sent: seq<(Id, Prompt)>): seq<Delivery> {
    seq(|sent|, i requires 0 <= i < |sent| => Asked(sent[i].0, sent[i].1))
  }

  /** What the last step sends from state `b`; reattaching re-sends the open questions. */
  function SentBy(b: Broker, step: Step, online: bool): seq<Delivery> {
    match step
    case DoRequest(id) => if id !in b.verdicts && !b.auto && !b.once && online then [Requested(id)] else []
    case DoAsk(id, p) => if id !in b.answers && online then [Asked(id, p)] else []
    case DoReattach => Questions(Resent(b, b.asked))
    case _ => []
  }

  function Delivered(run: seq<Step>): seq<Delivery> {
    if run == [] then []
    else
      var init := run[..|run| - 1];
      Delivered(init) + SentBy(Final(init), run[|run| - 1], Online(init))
  }

  /** Whenever a client is attached, every open question was delivered to one. */
  lemma {:induction false} QuestionsAreDelivered(run: seq<Step>, id: Id)
    requires Online(run) && Open(Final(run), id)
    ensures Asked(id, Final(run).prompts[id]) in Delivered(run)
  {
    hide Do, Resent, Open;
    if run != [] {
      var init, last := run[..|run| - 1], run[|run| - 1];
      RunKeepsInv(init);
      OpenByStep(Final(init), last, id);
      if last == DoReattach {
        Redelivers(Final(init), id);
      } else if Open(Final(init), id) {
        QuestionsAreDelivered(init, id);
      }
    } else {
      NothingOpen(id);
    }
  }

  lemma NothingOpen(id: Id)
    ensures !Open(EMPTY, id)
  {
  }

  lemma OpenByStep(b: Broker, step: Step, id: Id)
    requires Inv(b) && Open(Do(b, step), id)
    ensures (Open(b, id) && Do(b, step).prompts[id] == b.prompts[id])
         || (step.DoAsk? && step.id == id && id !in b.answers && Do(b, step).prompts[id] == step.prompt)
    ensures step == DoReattach ==> Open(b, id) && Do(b, step) == b
  {
    hide Normalized, Drop;
    match step
    case DoAsk(x, p) =>
    case DoContinue(x) =>
    case DoAnswer(x, given) =>
    case DoCancelAll(_) =>
    case _ =>
  }

  lemma Redelivers(b: Broker, id: Id)
    requires Open(b, id)
    ensures Asked(id, b.prompts[id]) in Questions(Resent(b, b.asked))
  {
    var sent := Resent(b, b.asked);
    ResentIff(b, b.asked, id, b.prompts[id]);
    var k :| 0 <= k < |sent| && sent[k] == (id, b.prompts[id]);
    assert Questions(sent)[k] == Asked(id, b.prompts[id]);
  }

  /** The request was raised while the session was muted, and not auto-approved. */
  ghost predicate RaisedMuted(run: seq<Step>, id: Id) {
    exists k :: 0 <= k < |run| && RaisedMutedAt(run, k, id)
  }

  ghost predicate RaisedMutedAt(run: seq<Step>, k: int, id: Id)
    requires 0 <= k < |run|
  {
    Raises(Final(run[..k]), run[k], id) && !Online(run[..k])
  }

  predicate Raises(b: Broker, step: Step, id: Id) {
    step == DoRequest(id) && id !in b.verdicts && !b.auto && !b.once
  }

  lemma RaisedMutedStep(run: seq<Step>, id: Id)
    requires run != []
    ensures var init, last := run[..|run| - 1], run[|run| - 1];
      RaisedMuted(run, id) <==> RaisedMuted(init, id) || (Raises(Final(init), last, id) && !Online(init))
  {
    hide Final, Raises, Online;
    var n := |run| - 1;
    var init := run[..n];
    assert forall k :: 0 <= k < n ==> init[..k] == run[..k] && init[k] == run[k];
    assert forall k :: 0 <= k < n ==> (RaisedMutedAt(init, k, id) <==> RaisedMutedAt(run, k, id));
    if RaisedMuted(init, id) {
      var k :| 0 <= k < n && RaisedMutedAt(init, k, id);
      assert RaisedMutedAt(run, k, id);
    }
    if Raises(Final(init), run[n], id) && !Online(init) { assert RaisedMutedAt(run, n, id); }
    if RaisedMuted(run, id) {
      var k :| 0 <= k < |run| && RaisedMutedAt(run, k, id);
      if k < n { assert RaisedMutedAt(init, k, id); }
    }
  }

  lemma RaisedByStep(b: Broker, step: Step, id: Id, online: bool)
    ensures id in Do(b, step).verdicts <==> id in b.verdicts || step == DoRequest(id)
    ensures Raises(b, step, id) ==> step == DoRequest(id)
    ensures Requested(id) in SentBy(b, step, online) <==> Raises(b, step, id) && online
    ensures id in b.verdicts && b.verdicts[id] != Undecided ==> Do(b, step).verdicts[id] != Undecided
    ensures id !in b.verdicts && step == DoRequest(id) && Do(b, step).verdicts[id] == Undecided ==> Raises(b, step, id)
  {
    hide Normalized, Drop, Resent;
  }

  /** A permission request that still waits was delivered to no client exactly if it was
      raised while the session was muted: unlike a question it is never sent again, however
      often a client reattaches. */
  lemma {:induction false} UndeliveredIffRaisedMuted(run: seq<Step>, id: Id)
    ensures id !in Final(run).verdicts ==> Requested(id) !in Delivered(run) && !RaisedMuted(run, id)
    ensures id in Final(run).verdicts && Final(run).verdicts[id] == Undecided ==>
              (Requested(id) !in Delivered(run) <==> RaisedMuted(run, id))
  {
    hide Do, SentBy, Raises;
    if run != [] {
      hide RaisedMuted;
      var init, last := run[..|run| - 1], run[|run| - 1];
      UndeliveredIffRaisedMuted(init, id);
      RaisedMutedStep(run, id);
      RaisedByStep(Final(init), last, id, Online(init));
      RaisesOnce(Final(init), last, id);
    }
  }

  lemma RaisesOnce(b: Broker, step: Step, id: Id)
    ensures id in b.verdicts ==> !Raises(b, step, id)
  {
  }

  lemma AfterPark(muted: bool)
    ensures var run := [DoPark(muted, "")];
      Final(run) == EMPTY && Delivered(run) == [] && Listed(run) == [] && (Online(run) <==> !muted)
  {
    assert [DoPark(muted, "")][..0] == [];
    assert Online([]);
  }

  /** It can happen: the agent asks while nobody is connected. */
  lemma RequestRaisedMuted(id: Id)
    ensures var run := [DoPark(true, ""), DoRequest(id), DoReattach];
      Online(run) && Decidable(Final(run), id) && Delivered(run) == []
  {
    var park := DoPark(true, "");
    var run := [park, DoRequest(id), DoReattach];
    assert run[..2] == [park, DoRequest(id)] && run[..2][..1] == [park] && [park][..0] == [];
    AfterPark(true);
    assert Final(run[..2]) == Request(EMPTY, id) && Delivered(run[..2]) == [] && !Online(run[..2]);
    assert Resent(Final(run[..2]), []) == [];
  }

  // ----- what a client still lists -----

  /** The requests on the list of the client: starting or reattaching a session empties it,
      an answer takes a request off. */
  function Listed(run: seq<Step>): seq<Id> {
    if run == [] then []
    else
      var init, last := run[..|run| - 1], run[|run| - 1];
      match last
      case DoReattach => []
      case DoRequest(id) => if Raises(Final(init), last, id) && Online(init) then Listed(init) + [id] else Listed(init)
      case DoResolve(id, _, _) => if Decidable(Final(init), id) then Drop(Listed(init), id) else Listed(init)
      case _ => Listed(init)
  }

  /** The request was raised while a client was there, and no client reattached since. */
  ghost predicate RaisedHere(run: seq<Step>, id: Id) {
    exists k :: 0 <= k < |run| && RaisedOnlineAt(run, k, id) && NoReattachAfter(run, k)
  }

  ghost predicate RaisedOnlineAt(run: seq<Step>, k: int, id: Id)
    requires 0 <= k < |run|
  {
    Raises(Final(run[..k]), run[k], id) && Online(run[..k])
  }

  ghost predicate NoReattachAfter(run: seq<Step>, k: int) {
    forall j :: 0 <= j && k < j < |run| ==> run[j] != DoReattach
  }

  lemma RaisedHereStep(run: seq<Step>, id: Id)
    requires run != []
    ensures var init, last := run[..|run| - 1], run[|run| - 1];
      RaisedHere(run, id) <==>
        (Raises(Final(init), last, id) && Online(init)) || (RaisedHere(init, id) && last != DoReattach)
  {
    hide Final, Raises, Online;
    var n := |run| - 1;
    var init := run[..n];
    assert forall k :: 0 <= k < n ==> init[..k] == run[..k] && init[k] == run[k];
    assert forall k :: 0 <= k < n ==> (RaisedOnlineAt(init, k, id) <==> RaisedOnlineAt(run, k, id));
    if RaisedHere(init, id) && run[n] != DoReattach {
      var k :| 0 <= k < n && RaisedOnlineAt(init, k, id) && NoReattachAfter(init, k);
      assert RaisedOnlineAt(run, k, id) && NoReattachAfter(run, k);
    }
    if RaisedOnlineAt(run, n, id) { assert NoReattachAfter(run, n); }
    if RaisedHere(run, id) {
      var k :| 0 <= k < |run| && RaisedOnlineAt(run, k, id) && NoReattachAfter(run, k);
      if k < n { assert RaisedOnlineAt(init, k, id) && NoReattachAfter(init, k) && run[n] != DoReattach; }
    }
  }

  lemma WaitingByStep(b: Broker, step: Step, id: Id)
    requires id in Do(b, step).verdicts && Do(b, step).verdicts[id] == Undecided
    ensures Raises(b, step, id) || (id in b.verdicts && b.verdicts[id] == Undecided)
    ensures step.DoResolve? && Decidable(b, step.id) ==> step.id != id
  {
    hide Normalized, Drop;
  }

  /** Of the requests that still wait, a client lists exactly those that were raised since it
      attached: unlike questions, requests raised before, delivered or not, are not sent
      again. */
  lemma {:induction false} ListedIffRaisedHere(run: seq<Step>, id: Id)
    requires id in Final(run).verdicts && Final(run).verdicts[id] == Undecided
    ensures id in Listed(run) <==> RaisedHere(run, id)
  {
    hide Do, Drop, Decidable;
    var init, last := run[..|run| - 1], run[|run| - 1];
    RaisedHereStep(run, id);
    WaitingByStep(Final(init), last, id);
    if Raises(Final(init), last, id) {
      NotRaisedBefore(init, id);
    } else {
      ListedIffRaisedHere(init, id);
    }
  }

  lemma {:induction false} NotRaisedBefore(run: seq<Step>, id: Id)
    requires id !in Final(run).verdicts
    ensures id !in Listed(run) && !RaisedHere(run, id)
  {
    hide Do, Decidable, Raises;
    if run != [] {
      var init, last := run[..|run| - 1], run[|run| - 1];
      RaisedByStep(Final(init), last, id, Online(init));
      NotRaisedBefore(init, id);
      RaisedHereStep(run, id);
      if last.DoRequest? { RaisedByStep(Final(init), last, last.id, Online(init)); }
      RaisesTakes(Final(init), last, id);
    }
  }

  lemma RaisesTakes(b: Broker, step: Step, id: Id)
    requires id !in Do(b, step).verdicts
    ensures !Raises(b, step, id)
  {
  }

  /** A request that reaches the client while it shows another session is off its list when it
      comes back, though it still waits. */
  lemma RequestRaisedBehind(id: Id)
    ensures var run := [DoPark(false, ""), DoRequest(id), DoReattach];
      Decidable(Final(run), id) && Delivered(run) == [Requested(id)] && Listed(run[..2]) == [id] && Listed(run) == []
  {
    var park := DoPark(false, "");
    var run := [park, DoRequest(id), DoReattach];
    assert run[..2] == [park, DoRequest(id)] && run[..2][..1] == [park] && [park][..0] == [];
    AfterPark(false);
    assert Final(run[..2]) == Request(EMPTY, id) && Delivered(run[..2]) == [Requested(id)];
    assert Listed(run[..2]) == [id];
    assert Resent(Final(run[..2]), []) == [];
  }

  // ----- the broker object -----

  class PermissionBroker {
    var auto: bool
    var once: bool
    var pending: seq<Id>
    var verdicts: map<Id, Verdict>
    var asked: seq<Id>
    var prompts: map<Id, Prompt>
    var answers: map<Id, Option<seq<string>>>

    constructor ()
      ensures View() == EMPTY
    {
      auto, once, pending, verdicts := false, false, [], map[];
      asked, prompts, answers := [], map[], map[];
    }

    ghost function View(): Broker
      reads this
    {
      Broker(auto, once, pending, verdicts, asked, prompts, answers)
    }

    /** True if the tool may run without asking. */
    method RequestPermission(id: Id) returns (allowed: bool)
      requires id !in verdicts
      modifies this
      ensures View() == Do(old(View()), DoRequest(id))
      ensures allowed == (old(auto) || old(once))
      ensures !allowed ==> Decidable(View(), id)
    {
      allowed := auto || once;
      if allowed {
        verdicts := verdicts[id := Allowed];
      } else {
        pending := pending + [id];
        verdicts := verdicts[id := Undecided];
      }
    }

    method ResolveRequest(id: Id, allow: bool, reason: string) returns (matched: bool)
      modifies this
      ensures View() == Do(old(View()), DoResolve(id, allow, reason))
      ensures matched == Decidable(old(View()), id)
      ensures matched ==> Some(verdicts[id]) == Decision(DoResolve(id, allow, reason), id)
    {
      if id !in pending || id !in verdicts || verdicts[id] != Undecided { return false; }
      verdicts := verdicts[id := if allow then Allowed else Denied(if reason == "" then "Denied by user" else reason)];
      return true;
    }

    method AskUser(id: Id, prompt: Prompt)
      requires id !in answers
      modifies this
      ensures View() == Do(old(View()), DoAsk(id, prompt))
    {
      asked := asked + [id];
      prompts := prompts[id := prompt];
      answers := answers[id := None];
    }

    method ResolveUserInput(id: Id, given: seq<string>) returns (matched: bool)
      modifies this
      ensures View() == Do(old(View()), DoAnswer(id, given))
      ensures matched == Open(old(View()), id)
      ensures matched ==>
                answers[id].Some? && Told(answers[id].value, given, |old(prompts)[id].questions|)
    {
      if id !in asked || id !in prompts || id !in answers || answers[id] != None { return false; }
      var expected := |prompts[id].questions|;
      var normalized := if expected <= |given| then given[..expected] else given;
      while |normalized| < expected
        invariant |normalized| <= expected
        invariant forall i :: 0 <= i < |normalized| ==> normalized[i] == if i < |given| then given[i] else ""
        invariant |given| <= |normalized| || |normalized| == expected
        decreases expected - |normalized|
      {
        normalized := normalized + [""];
      }
      assert normalized == Normalized(given, expected);
      answers := answers[id := Some(normalized)];
      return true;
    }

    /** The broker's side of parking. */
    method Deny(reason: string)
      modifies this
      ensures View() == CancelPermissions(old(View()), reason)
    {
      var k := 0;
      while k < |pending|
        invariant k <= |pending|
        invariant unchanged(`auto) && unchanged(`once) && unchanged(`pending)
        invariant unchanged(`asked) && unchanged(`prompts) && unchanged(`answers)
        invariant verdicts.Keys == old(verdicts).Keys
        invariant forall id :: id in verdicts ==>
          verdicts[id] ==
            if id in pending[..k] && old(verdicts)[id] == Undecided then Denied(reason) else old(verdicts)[id]
      {
        var id := pending[k];
        if id in verdicts && verdicts[id] == Undecided { verdicts := verdicts[id := Denied(reason)]; }
        k := k + 1;
      }
      assert pending[..k] == pending;
      pending := [];
    }

    method TearDown(reason: string)
      modifies this
      ensures View() == Do(old(View()), DoCancelAll(reason))
    {
      hide Normalized;
      Deny(reason);
      AnswerWithBlanks();
      asked := [];
      prompts := map[];
    }

    method AnswerWithBlanks()
      modifies `answers
      ensures answers == map id | id in old(answers) ::
                if Open(old(View()), id) then Some(Normalized([], |prompts[id].questions|)) else old(answers)[id]
    {
      hide Normalized;
      ghost var was := View();
      var k := 0;
      while k < |asked|
        invariant k <= |asked|
        invariant answers.Keys == was.answers.Keys
        invariant forall id :: id in answers ==>
          answers[id] ==
            if id in asked[..k] && Open(was, id) then Some(Normalized([], |prompts[id].questions|))
            else was.answers[id]
      {
        var id := asked[k];
        assert asked[..k + 1] == asked[..k] + [id];
        if id in answers && answers[id] == None && id in prompts {
          answers := answers[id := Some(Normalized([], |prompts[id].questions|))];
        }
        k := k + 1;
      }
      assert asked[..k] == asked;
    }

    method Resend() returns (sent: seq<(Id, Prompt)>)
      ensures sent == Resent(View(), asked)
    {
      sent := [];
      for k := 0 to |asked|
        invariant sent == Resent(View(), asked[..k])
      {
        var id := asked[k];
        assert asked[..k + 1][..k] == asked[..k];
        if id in answers && answers[id] == None && id in prompts { sent := sent + [(id, prompts[id])]; }
      }
      assert asked[..|asked|] == asked;
    }
  }
}
