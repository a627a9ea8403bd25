/** The leave workflow: StudentStatus of example/include/app/student_mange_server.h and the handlers
    app_leave, app_release and app_approval of example/app/app_business.cpp.

    The table is a map from note number to row.  A handler reads a row with one statement and writes
    its status with another; other requests may run in between. */
module Leave {
  import opened Bytes

  // The packed status.

  /** LeaveStatus, two bits wide. */
  type Decision = x: int | 0 <= x < 4

  const PENDING: Decision := 0
  const PASSED: Decision := 1
  const REJECTED: Decision := 2

  datatype Status = Status(instructor: Decision, mentor: Decision, destroyed: bool)

  /** StudentStatus(int): bits 0 and 1, bits 2 and 3, bit 4. */
  function Decode(status: int): Status {
    Status(status % 4, status / 4 % 4, status / 16 % 2 == 1)
  }

  /** status(): the three parts side by side. */
  function Encode(s: Status): int {
    s.instructor + s.mentor * 4 + (if s.destroyed then 16 else 0)
  }

  function TwoBits(x: Decision): bv8 {
    if x == 0 then 0 else if x == 1 then 1 else if x == 2 then 2 else 3
  }

  /** The expression of status(). */
  function Packed(instructor: bv8, mentor: bv8, destroyed: bv8): int {
    (instructor | (mentor << 2) | (destroyed << 4)) as int
  }

  lemma PackedParts(m: bv8, d: bv8)
    requires (m == 0 || m == 1 || m == 2 || m == 3) && (d == 0 || d == 1)
    ensures var high := (m as int) * 4 + (d as int) * 16;
      && Packed(0, m, d) == high && Packed(1, m, d) == 1 + high
      && Packed(2, m, d) == 2 + high && Packed(3, m, d) == 3 + high
  {
  }

  /** The parts do not overlap, so the bitwise or is the sum. */
  lemma EncodeIsPacked(s: Status)
    ensures Encode(s) == Packed(TwoBits(s.instructor), TwoBits(s.mentor), if s.destroyed then 1 else 0)
  {
    PackedParts(TwoBits(s.mentor), if s.destroyed then 1 else 0);
  }

  lemma DecodeUndoesEncode(s: Status)
    ensures Decode(Encode(s)) == s && 0 <= Encode(s) < 32
  {
  }

  /** A stored number is what its decoding encodes to exactly when it has no bits but these five. */
  lemma EncodeUndoesDecodeIff(n: int)
    ensures Encode(Decode(n)) == n <==> 0 <= n < 32
  {
    var a, b := n / 4, n / 16;
    assert n == 4 * a + n % 4 && a == 4 * b + a % 4 && b == 2 * (b / 2) + b % 2;
  }

  /** is_passed() */
  predicate IsPassed(s: Status) {
    !s.destroyed && s.mentor == PASSED && s.instructor == PASSED
  }

  // Requests on one row.

  datatype Row = Row(status: int, instructor: Bytes, mentor: Bytes)

  datatype Request = Release(note: int) | Approval(note: int, user: Bytes, pass: bool)

  datatype Refusal = NotFound | Forbidden | WrongStatus

  datatype Reply = Write(status: Status) | Refuse(why: Refusal)

  function Verdict(pass: bool): Decision {
    if pass then PASSED else REJECTED
  }

  /** What a request makes of the row it selected: a status to write, or a refusal.  A user who is both
      instructor and mentor decides for both. */
  function Answer(q: Request, row: Row): Reply {
    var s := Decode(row.status);
    match q
    case Release(_) => if IsPassed(s) then Write(s.(destroyed := true)) else Refuse(WrongStatus)
    case Approval(_, user, pass) =>
      if user != row.instructor && user != row.mentor then Refuse(Forbidden)
      else if user == row.instructor && s.instructor != PENDING then Refuse(WrongStatus)
      else if user == row.mentor && s.mentor != PENDING then Refuse(WrongStatus)
      else Write(Status(if user == row.instructor then Verdict(pass) else s.instructor,
                        if user == row.mentor then Verdict(pass) else s.mentor, s.destroyed))
  }

  /** A new note: a junior's mentor is taken to have passed it. */
  function NewStatus(junior: bool): Status {
    Status(PENDING, if junior then PASSED else PENDING, false)
  }

  /** No field holds the unused value, and a destroyed note was passed by both. */
  predicate Sound(status: int) {
    0 <= status < 32
    && var s := Decode(status);
      s.instructor != 3 && s.mentor != 3 && (s.destroyed ==> s.instructor == PASSED && s.mentor == PASSED)
  }

  lemma AnswerIsSound(q: Request, row: Row)
    requires Sound(row.status) && Answer(q, row).Write?
    ensures Sound(Encode(Answer(q, row).status))
  {
    DecodeUndoesEncode(Answer(q, row).status);
  }

  /** Decisions made stay as they are, and a destroyed note stays destroyed. */
  predicate Keeps(s: Status, t: Status) {
    (s.instructor != PENDING ==> t.instructor == s.instructor)
    && (s.mentor != PENDING ==> t.mentor == s.mentor)
    && (s.destroyed ==> t.destroyed)
  }

  lemma AnswerKeeps(q: Request, row: Row)
    requires Answer(q, row).Write?
    ensures Keeps(Decode(row.status), Answer(q, row).status)
  {
  }

  /** A request answers two rows of one note alike only if their statuses are the same. */
  lemma AnswerInjective(q: Request, row: Row, other: Row)
    requires Answer(q, row).Write? && Sound(row.status) && Sound(other.status)
    requires row.instructor == other.instructor && row.mentor == other.mentor
    ensures Answer(q, other) == Answer(q, row) <==> other.status == row.status
  {
    if Answer(q, other) == Answer(q, row) {
      EncodeUndoesDecodeIff(row.status);
      EncodeUndoesDecodeIff(other.status);
      assert Decode(other.status) == Decode(row.status);
    }
  }

  // The table, with handlers that run alone.

  class Database {
    var rows: map<int, Row>

    constructor ()
      ensures rows == map[]
    {
      rows := map[];
    }

    /** app_leave; the table gives a new note an unused number. */
    method Apply(note: int, instructor: Bytes, mentor: Bytes, isGraduate: bool)
      requires note !in rows
      modifies this
      ensures rows == old(rows)[note := Row(Encode(NewStatus(!isGraduate)), instructor, mentor)]
    {
      var status := Status(PENDING, PENDING, false);
      // Writing is_junior_ overwrites the mentor it shares its place with.
      var isJunior := !isGraduate;
      status := status.(mentor := if isJunior then 1 else 0);
      rows := rows[note := Row(Encode(status), instructor, mentor)];
    }

    method ReleaseNote(note: int) returns (refusal: Option<Refusal>)
      modifies this
      ensures (refusal, rows) == RunAlone(old(rows), Release(note))
    {
      if note !in rows {
        return Some(NotFound);
      }
      var status := Decode(rows[note].status);
      if !IsPassed(status) {
        return Some(WrongStatus);
      }
      status := status.(destroyed := true);
      rows := rows[note := rows[note].(status := Encode(status))];
      return None;
    }

    method Approve(user: Bytes, note: int, pass: bool) returns (refusal: Option<Refusal>)
      modifies this
      ensures (refusal, rows) == RunAlone(old(rows), Approval(note, user, pass))
    {
      if note !in rows {
        return Some(NotFound);
      }
      var row := rows[note];
      var status := Decode(row.status);
      if user != row.instructor && user != row.mentor {
        return Some(Forbidden);
      }
      if user == row.instructor {
        if status.instructor != PENDING {
          return Some(WrongStatus);
        }
        status := status.(instructor := if pass then PASSED else REJECTED);
      }
      if user == row.mentor {
        if status.mentor != PENDING {
          return Some(WrongStatus);
        }
        status := status.(mentor := if pass then PASSED else REJECTED);
      }
      rows := rows[note := row.(status := Encode(status))];
      return None;
    }
  }

  /** A request without interference: the refusal, if any, and the table after it. */
  function RunAlone(rows: map<int, Row>, q: Request): (Option<Refusal>, map<int, Row>) {
    if q.note !in rows then (Some(NotFound), rows)
    else match Answer(q, rows[q.note])
      case Refuse(why) => (Some(why), rows)
      case Write(s) => (None, rows[q.note := rows[q.note].(status := Encode(s))])
  }

  /** By the stored number: a note is released exactly when it is 5, both passed and not destroyed, and
      then it becomes 21; any other is refused, an unknown one as not found. */
  lemma ReleaseByNumber(rows: map<int, Row>, note: int)
    requires note in rows ==> Sound(rows[note].status)
    ensures var (refusal, after) := RunAlone(rows, Release(note));
      if note !in rows then refusal == Some(NotFound) && after == rows
      else if rows[note].status == 5 then refusal == None && after == rows[note := rows[note].(status := 21)]
      else refusal == Some(WrongStatus) && after == rows
  {
    if note in rows {
      NumberParts(rows[note].status);
    }
  }

  lemma NumberParts(n: int)
    requires 0 <= n < 32
    ensures n == n % 4 + n / 4 % 4 * 4 + n / 16 * 16 && n / 16 < 2
  {
    EncodeUndoesDecodeIff(n);
  }

  /** By the stored number: an approval is not found without the row, forbidden to anyone but the two
      teachers, and refused exactly when a decision the user has to make is already made; otherwise it
      adds the decision, 1 or 2, in the two bits of the instructor, of the mentor, or of both. */
  lemma ApprovalByNumber(rows: map<int, Row>, note: int, user: Bytes, pass: bool)
    requires note in rows ==> Sound(rows[note].status)
    ensures var (refusal, after) := RunAlone(rows, Approval(note, user, pass));
      if note !in rows then refusal == Some(NotFound) && after == rows
      else
        var Row(n, i, m) := rows[note];
        if user != i && user != m then refusal == Some(Forbidden) && after == rows
        else if (user == i && n % 4 != 0) || (user == m && n / 4 % 4 != 0) then
          refusal == Some(WrongStatus) && after == rows
        else
          var v := if pass then 1 else 2;
          refusal == None
          && after == rows[note := Row(n + (if user == i then v else 0) + (if user == m then 4 * v else 0), i, m)]
  {
    if note in rows {
      NumberParts(rows[note].status);
    }
  }

  // Requests that interleave.

  /** A request between its two statements: the status it selected and the one it will write. */
  datatype Job = Job(request: Request, seen: int, value: int)

  datatype State = State(rows: map<int, Row>, jobs: map<nat, Job>)

  datatype Step =
    | Insert(note: int, instructor: Bytes, mentor: Bytes, junior: bool)
    | Select(id: nat, request: Request)
    | Update(id: nat)

  const EMPTY := State(map[], map[])

  /** A select that ends in a refusal changes nothing and is left out. */
  predicate Enabled(s: State, step: Step) {
    match step
    case Insert(note, _, _, _) => note !in s.rows
    case Select(id, q) => id !in s.jobs && q.note in s.rows && Answer(q, s.rows[q.note]).Write?
    case Update(id) => id in s.jobs
  }

  /** The update statement; it finds no row when the note does not exist. */
  function SetStatus(rows: map<int, Row>, note: int, value: int): map<int, Row> {
    if note in rows then rows[note := rows[note].(status := value)] else rows
  }

  function Exec(s: State, step: Step): State
    requires Enabled(s, step)
  {
    match step
    case Insert(note, i, m, junior) => s.(rows := s.rows[note := Row(Encode(NewStatus(junior)), i, m)])
    case Select(id, q) =>
      var row := s.rows[q.note];
      s.(jobs := s.jobs[id := Job(q, row.status, Encode(Answer(q, row).status))])
    case Update(id) =>
      var job := s.jobs[id];
      State(SetStatus(s.rows, job.request.note, job.value), s.jobs - {id})
  }

  predicate ValidRun(s: State, steps: seq<Step>)
    decreases |steps|
  {
    steps == [] || (Enabled(s, steps[0]) && ValidRun(Exec(s, steps[0]), steps[1..]))
  }

  function Run(s: State, steps: seq<Step>): State
    requires ValidRun(s, steps)
    decreases |steps|
  {
    if steps == [] then s else Run(Exec(s, steps[0]), steps[1..])
  }

  /** The row a job selected, as it was then; its teachers never change. */
  function SeenRow(s: State, job: Job): Row
    requires job.request.note in s.rows
  {
    s.rows[job.request.note].(status := job.seen)
  }

  ghost predicate JobOk(s: State, job: Job) {
    job.request.note in s.rows && Sound(job.seen) && Answer(job.request, SeenRow(s, job)).Write?
    && job.value == Encode(Answer(job.request, SeenRow(s, job)).status)
  }

  ghost predicate Inv(s: State) {
    (forall note :: note in s.rows ==> Sound(s.rows[note].status))
    && (forall id :: id in s.jobs ==> JobOk(s, s.jobs[id]))
  }

  lemma NewStatusIsSound(junior: bool)
    ensures Sound(Encode(NewStatus(junior)))
  {
  }

  lemma JobValueIsSound(s: State, job: Job)
    requires JobOk(s, job)
    ensures Sound(job.value)
  {
    AnswerIsSound(job.request, SeenRow(s, job));
  }

  lemma StepKeepsInv(s: State, step: Step)
    requires Inv(s) && Enabled(s, step)
    ensures Inv(Exec(s, step))
  {
    hide Sound, Answer;
    var s' := Exec(s, step);
    match step
    case Insert(_, _, _, junior) =>
      NewStatusIsSound(junior);
      assert forall id :: id in s.jobs ==> SeenRow(s', s.jobs[id]) == SeenRow(s, s.jobs[id]);
    case Select(id, q) =>
      var job := s'.jobs[id];
      assert SeenRow(s', job) == s.rows[q.note];
      assert forall other :: other in s.jobs ==> SeenRow(s', s.jobs[other]) == SeenRow(s, s.jobs[other]);
    case Update(id) =>
      JobValueIsSound(s, s.jobs[id]);
      assert forall other :: other in s'.jobs ==> SeenRow(s', s.jobs[other]) == SeenRow(s, s.jobs[other]);
  }

  /** Whatever the interleaving, every stored status is sound: no field is 3, and a destroyed note has
      been passed by both. */
  lemma {:induction false} RunKeepsInv(s: State, steps: seq<Step>)
    requires Inv(s) && ValidRun(s, steps)
    ensures Inv(Run(s, steps))
    decreases |steps|
  {
    if steps != [] {
      hide Inv, Exec, Enabled;
      StepKeepsInv(s, steps[0]);
      RunKeepsInv(Exec(s, steps[0]), steps[1..]);
    }
  }

  lemma AlwaysSound(steps: seq<Step>, note: int)
    requires ValidRun(EMPTY, steps) && note in Run(EMPTY, steps).rows
    ensures Sound(Run(EMPTY, steps).rows[note].status)
  {
    RunKeepsInv(EMPTY, steps);
  }

  /** Writing what was computed from the selected row is what the request would do if it ran alone at
      the time of the write exactly when the status is still the one it selected. */
  lemma UpdateIsAloneIff(s: State, id: nat)
    requires Inv(s) && id in s.jobs
    ensures var job := s.jobs[id];
      RunAlone(s.rows, job.request) == (None, Exec(s, Update(id)).rows) <==> s.rows[job.request.note].status == job.seen
  {
    hide Sound, Encode, Decode;
    var job := s.jobs[id];
    var note := job.request.note;
    var row, seen := s.rows[note], SeenRow(s, job);
    assert JobOk(s, job);
    AnswerInjective(job.request, seen, row);
    if RunAlone(s.rows, job.request) == (None, Exec(s, Update(id)).rows) {
      var w := Answer(job.request, row).status;
      assert RunAlone(s.rows, job.request).1[note].status == Encode(w);
      DecodeUndoesEncode(w);
      DecodeUndoesEncode(Answer(job.request, seen).status);
    }
    if row.status == job.seen {
      assert row == seen;
    }
  }

  /** When writing what a request made of the status it selected keeps the decisions of the row it finds,
      field by field. */
  predicate Compatible(q: Request, seen: Status, found: Row) {
    var f := Decode(found.status);
    match q
    case Release(_) => f.instructor != REJECTED && f.mentor != REJECTED
    case Approval(_, user, pass) =>
      && !f.destroyed
      && f.instructor in {PENDING, if user == found.instructor then Verdict(pass) else seen.instructor}
      && f.mentor in {PENDING, if user == found.mentor then Verdict(pass) else seen.mentor}
  }

  lemma CompatibleIff(q: Request, seen: Row, found: Row)
    requires Sound(seen.status) && Sound(found.status) && Answer(q, seen).Write?
    requires seen.instructor == found.instructor && seen.mentor == found.mentor
    ensures Keeps(Decode(found.status), Answer(q, seen).status) <==> Compatible(q, Decode(seen.status), found)
  {
  }

  /** An update, raced or not, keeps the decisions and the destroyed mark of the row it finds exactly in
      these cases. */
  lemma UpdateKeepsIff(s: State, id: nat)
    requires Inv(s) && id in s.jobs
    ensures var job := s.jobs[id];
      var found := s.rows[job.request.note];
      var after := Exec(s, Update(id)).rows[job.request.note];
      Keeps(Decode(found.status), Decode(after.status)) <==> Compatible(job.request, Decode(job.seen), found)
  {
    hide Sound, Encode, Decode, Compatible, Keeps;
    var job := s.jobs[id];
    assert JobOk(s, job);
    var seen := SeenRow(s, job);
    DecodeUndoesEncode(Answer(job.request, seen).status);
    CompatibleIff(job.request, seen, s.rows[job.request.note]);
  }

  /** Every update of the run is compatible with the row it finds. */
  predicate AllCompatible(s: State, steps: seq<Step>)
    requires ValidRun(s, steps)
    decreases |steps|
  {
    steps == []
    || ((steps[0].Update? ==>
           var job := s.jobs[steps[0].id];
           job.request.note in s.rows ==> Compatible(job.request, Decode(job.seen), s.rows[job.request.note]))
        && AllCompatible(Exec(s, steps[0]), steps[1..]))
  }

  /** No step of the run changes a decision or clears a destroyed mark. */
  ghost predicate NothingLost(s: State, steps: seq<Step>)
    requires ValidRun(s, steps)
    decreases |steps|
  {
    steps == [] || (StepLosesNothing(s, steps[0]) && NothingLost(Exec(s, steps[0]), steps[1..]))
  }

  ghost predicate StepLosesNothing(s: State, step: Step)
    requires Enabled(s, step)
  {
    forall note :: note in s.rows ==>
      note in Exec(s, step).rows && Keeps(Decode(s.rows[note].status), Decode(Exec(s, step).rows[note].status))
  }

  lemma StepLosesIff(s: State, step: Step)
    requires Inv(s) && Enabled(s, step)
    ensures StepLosesNothing(s, step) <==>
      (step.Update? ==> var job := s.jobs[step.id]; Compatible(job.request, Decode(job.seen), s.rows[job.request.note]))
  {
    hide Sound, Encode, Decode, Compatible, Answer;
    if step.Update? {
      assert JobOk(s, s.jobs[step.id]);
      UpdateKeepsIff(s, step.id);
    }
  }

  /** Over any run, with any races, decisions stand and destroyed notes stay destroyed at every step exactly
      when every update is compatible with the row it finds. */
  lemma {:induction false} NothingLostIff(s: State, steps: seq<Step>)
    requires Inv(s) && ValidRun(s, steps)
    ensures NothingLost(s, steps) <==> AllCompatible(s, steps)
    decreases |steps|
  {
    if steps != [] {
      hide Sound, Exec, Enabled, Compatible, Decode, StepLosesNothing, Answer;
      StepKeepsInv(s, steps[0]);
      StepLosesIff(s, steps[0]);
      JobsHaveRows(s);
      NothingLostIff(Exec(s, steps[0]), steps[1..]);
    }
  }

  lemma JobsHaveRows(s: State)
    requires Inv(s)
    ensures forall id :: id in s.jobs ==> s.jobs[id].request.note in s.rows
  {
    hide Sound, Answer;
    assert forall id :: id in s.jobs ==> JobOk(s, s.jobs[id]);
  }

  // Runs without races: every update finds the status its request selected.

  predicate Isolated(s: State, steps: seq<Step>)
    requires ValidRun(s, steps)
    decreases |steps|
  {
    steps == []
    || ((steps[0].Update? ==> Current(s, s.jobs[steps[0].id])) && Isolated(Exec(s, steps[0]), steps[1..]))
  }

  predicate Current(s: State, job: Job) {
    job.request.note in s.rows ==> s.rows[job.request.note].status == job.seen
  }

  lemma StepKeepsDecisions(s: State, step: Step, note: int)
    requires Inv(s) && Enabled(s, step) && note in s.rows
    requires step.Update? ==> Current(s, s.jobs[step.id])
    ensures note in Exec(s, step).rows && Keeps(Decode(s.rows[note].status), Decode(Exec(s, step).rows[note].status))
    ensures Exec(s, step).rows[note].instructor == s.rows[note].instructor
         && Exec(s, step).rows[note].mentor == s.rows[note].mentor
  {
    hide Decode, Encode, Sound;
    if step.Update? {
      var job := s.jobs[step.id];
      assert JobOk(s, job);
      if job.request.note == note {
        assert SeenRow(s, job) == s.rows[note];
        AnswerKeeps(job.request, s.rows[note]);
        DecodeUndoesEncode(Answer(job.request, s.rows[note]).status);
      }
    }
  }

  lemma KeepsTransitive(a: Status, b: Status, c: Status)
    requires Keeps(a, b) && Keeps(b, c)
    ensures Keeps(a, c)
  {
  }

  /** In a run without races a decision once made never changes, and a destroyed note stays so. */
  lemma {:induction false} DecisionsStand(s: State, steps: seq<Step>, note: int)
    requires Inv(s) && ValidRun(s, steps) && Isolated(s, steps) && note in s.rows
    ensures note in Run(s, steps).rows
    ensures Keeps(Decode(s.rows[note].status), Decode(Run(s, steps).rows[note].status))
    decreases |steps|
  {
    if steps != [] {
      hide Inv, Exec, Enabled, Decode, Keeps, Current;
      var s' := Exec(s, steps[0]);
      StepKeepsInv(s, steps[0]);
      StepKeepsDecisions(s, steps[0], note);
      DecisionsStand(s', steps[1..], note);
      KeepsTransitive(Decode(s.rows[note].status), Decode(s'.rows[note].status),
                      Decode(Run(s', steps[1..]).rows[note].status));
    } else {
      KeepsItself(Decode(s.rows[note].status));
    }
  }

  lemma KeepsItself(s: Status)
    ensures Keeps(s, s)
  {
  }

  /** How many releases of a note succeed in a run. */
  function Releases(s: State, steps: seq<Step>, note: int): nat
    requires ValidRun(s, steps)
    decreases |steps|
  {
    if steps == [] then 0
    else (if Released(s, steps[0], note) then 1 else 0) + Releases(Exec(s, steps[0]), steps[1..], note)
  }

  predicate Released(s: State, step: Step, note: int)
    requires Enabled(s, step)
  {
    step.Update? && s.jobs[step.id].request == Release(note)
  }

  predicate Destroyed(s: State, note: int) {
    note in s.rows && Decode(s.rows[note].status).destroyed
  }

  lemma StepReleases(s: State, step: Step, note: int)
    requires Inv(s) && Enabled(s, step) && (step.Update? ==> Current(s, s.jobs[step.id]))
    ensures (if Destroyed(s, note) then 1 else 0) + (if Released(s, step, note) then 1 else 0)
         == (if Destroyed(Exec(s, step), note) then 1 else 0)
  {
    hide Decode, Encode, Sound;
    if step.Insert? {
      DecodeUndoesEncode(NewStatus(step.junior));
    }
    if step.Update? {
      var job := s.jobs[step.id];
      assert JobOk(s, job);
      if job.request.note == note {
        assert SeenRow(s, job) == s.rows[note];
        DecodeUndoesEncode(Answer(job.request, s.rows[note]).status);
      }
    }
  }

  /** In a run without races a note is released exactly as often as it becomes destroyed: once or not
      at all. */
  lemma {:induction false} ReleasedAtMostOnce(s: State, steps: seq<Step>, note: int)
    requires Inv(s) && ValidRun(s, steps) && Isolated(s, steps)
    ensures (if Destroyed(s, note) then 1 else 0) + Releases(s, steps, note)
         == (if Destroyed(Run(s, steps), note) then 1 else 0)
    decreases |steps|
  {
    if steps != [] {
      hide Inv, Exec, Enabled, Destroyed, Released, Current;
      StepKeepsInv(s, steps[0]);
      StepReleases(s, steps[0], note);
      ReleasedAtMostOnce(Exec(s, steps[0]), steps[1..], note);
    }
  }

  /** How many approvals of a note by a user succeed in a run. */
  function Approvals(s: State, steps: seq<Step>, note: int, user: Bytes): nat
    requires ValidRun(s, steps)
    decreases |steps|
  {
    if steps == [] then 0
    else (if Approved(s, steps[0], note, user) then 1 else 0) + Approvals(Exec(s, steps[0]), steps[1..], note, user)
  }

  predicate Approved(s: State, step: Step, note: int, user: Bytes)
    requires Enabled(s, step)
  {
    step.Update? && s.jobs[step.id].request.Approval? && s.jobs[step.id].request.note == note
    && s.jobs[step.id].request.user == user
  }

  /** The user can still decide. */
  predicate Open(s: State, note: int, user: Bytes) {
    note !in s.rows || Answer(Approval(note, user, true), s.rows[note]).Write?
  }

  lemma StepApproves(s: State, step: Step, note: int, user: Bytes)
    requires Inv(s) && Enabled(s, step) && (step.Update? ==> Current(s, s.jobs[step.id]))
    ensures Approved(s, step, note, user) ==> Open(s, note, user) && !Open(Exec(s, step), note, user)
    ensures !Open(s, note, user) ==> !Open(Exec(s, step), note, user)
  {
    hide Decode, Encode, Sound;
    if step.Update? {
      var job := s.jobs[step.id];
      assert JobOk(s, job);
      if job.request.note == note {
        assert SeenRow(s, job) == s.rows[note];
        DecodeUndoesEncode(Answer(job.request, s.rows[note]).status);
      }
    }
  }

  /** In a run without races every user decides about a note at most once. */
  lemma {:induction false} ApprovedAtMostOnce(s: State, steps: seq<Step>, note: int, user: Bytes)
    requires Inv(s) && ValidRun(s, steps) && Isolated(s, steps)
    ensures Approvals(s, steps, note, user) <= if Open(s, note, user) then 1 else 0
    decreases |steps|
  {
    if steps != [] {
      hide Inv, Exec, Enabled, Open, Approved, Current;
      StepKeepsInv(s, steps[0]);
      StepApproves(s, steps[0], note, user);
      ApprovedAtMostOnce(Exec(s, steps[0]), steps[1..], note, user);
    }
  }

  // Requests that run one after another.

  datatype Op = New(note: int, instructor: Bytes, mentor: Bytes, junior: bool) | Ask(request: Request)

  function StepsOf(op: Op): seq<Step> {
    match op
    case New(note, i, m, junior) => [Insert(note, i, m, junior)]
    case Ask(q) => [Select(0, q), Update(0)]
  }

  function Serial(ops: seq<Op>): seq<Step> {
    if ops == [] then [] else StepsOf(ops[0]) + Serial(ops[1..])
  }

  /** Requests that run one after another do not race. */
  lemma {:induction false} SerialIsIsolated(s: State, ops: seq<Op>)
    requires ValidRun(s, Serial(ops))
    ensures Isolated(s, Serial(ops))
    decreases |ops|
  {
    if ops != [] {
      hide Answer, Encode, NewStatus;
      var steps, rest := Serial(ops), Serial(ops[1..]);
      if ops[0].New? {
        assert steps[1..] == rest;
        SerialIsIsolated(Exec(s, steps[0]), ops[1..]);
      } else {
        var q := ops[0].request;
        assert steps[0] == Select(0, q) && steps[1] == Update(0) && steps[1..][1..] == rest;
        var s1 := Exec(s, steps[0]);
        assert s1.jobs[0].request == q && s1.jobs[0].seen == s1.rows[q.note].status;
        SerialIsIsolated(Exec(s1, steps[1]), ops[1..]);
      }
    }
  }

  // What races can do.

  /** A run from the empty table ends in this state. */
  ghost predicate Leads(steps: seq<Step>, s: State) {
    ValidRun(EMPTY, steps) && Run(EMPTY, steps) == s
  }

  lemma {:induction false} RunMore(s: State, steps: seq<Step>, step: Step)
    requires ValidRun(s, steps) && Enabled(Run(s, steps), step)
    ensures ValidRun(s, steps + [step]) && Run(s, steps + [step]) == Exec(Run(s, steps), step)
    decreases |steps|
  {
    hide Exec, Enabled;
    var all := steps + [step];
    if steps == [] {
      assert all[1..] == [];
    } else {
      assert all[1..] == steps[1..] + [step];
      RunMore(Exec(s, steps[0]), steps[1..], step);
    }
  }

  lemma Extend(steps: seq<Step>, s: State, step: Step, s': State)
    requires Leads(steps, s) && Enabled(s, step) && Exec(s, step) == s'
    ensures Leads(steps + [step], s')
  {
    hide Exec, Enabled;
    RunMore(EMPTY, steps, step);
  }

  lemma OneNewNote(i: Bytes, m: Bytes, junior: bool)
    ensures Leads([] + [Insert(1, i, m, junior)], State(map[1 := Row(if junior then 4 else 0, i, m)], map[]))
  {
    var s := State(map[1 := Row(if junior then 4 else 0, i, m)], map[]);
    assert Exec(EMPTY, Insert(1, i, m, junior)) == s;
    Extend([], EMPTY, Insert(1, i, m, junior), s);
  }

  /** Two teachers who select before either updates: the decision written first is lost. */
  lemma RaceLosesDecision(i: Bytes, m: Bytes) returns (before: seq<Step>)
    requires i != m
    ensures ValidRun(EMPTY, before) && ValidRun(EMPTY, before + [Update(1)])
    ensures var s, t := Run(EMPTY, before), Run(EMPTY, before + [Update(1)]);
      1 in s.rows && 1 in t.rows && Decode(s.rows[1].status).instructor == PASSED
      && Decode(t.rows[1].status).instructor == PENDING
  {
    hide ValidRun, Run;
    var p, q := Approval(1, i, true), Approval(1, m, true);
    var a, b := Job(p, 0, 1), Job(q, 0, 4);
    var rows := map[1 := Row(0, i, m)];
    var s1, s2, s3 := State(rows, map[]), State(rows, map[0 := a]), State(rows, map[0 := a, 1 := b]);
    var s4, s5 := State(map[1 := Row(1, i, m)], map[1 := b]), State(map[1 := Row(4, i, m)], map[]);
    before := [] + [Insert(1, i, m, false)];
    OneNewNote(i, m, false);
    Extend(before, s1, Select(0, p), s2);
    before := before + [Select(0, p)];
    Extend(before, s2, Select(1, q), s3);
    before := before + [Select(1, q)];
    Extend(before, s3, Update(0), s4);
    before := before + [Update(0)];
    Extend(before, s4, Update(1), s5);
  }

  /** A junior's note that the instructor passed while two more requests were under way. */
  lemma TwoUnderWay(i: Bytes, m: Bytes) returns (before: seq<Step>)
    requires i != m
    ensures Leads(before, State(map[1 := Row(5, i, m)], map[1 := Job(Approval(1, i, false), 4, 6)]))
  {
    hide ValidRun, Run;
    var p, q := Approval(1, i, true), Approval(1, i, false);
    var a, b := Job(p, 4, 5), Job(q, 4, 6);
    var rows := map[1 := Row(4, i, m)];
    var s1, s2, s3 := State(rows, map[]), State(rows, map[0 := a]), State(rows, map[0 := a, 1 := b]);
    before := [] + [Insert(1, i, m, true)];
    OneNewNote(i, m, true);
    Extend(before, s1, Select(0, p), s2);
    before := before + [Select(0, p)];
    Extend(before, s2, Select(1, q), s3);
    before := before + [Select(1, q)];
    Extend(before, s3, Update(0), State(map[1 := Row(5, i, m)], map[1 := b]));
    before := before + [Update(0)];
  }

  /** A late second decision turns a destroyed note back into one that is not. */
  lemma RaceClearsDestroyed(i: Bytes, m: Bytes) returns (before: seq<Step>)
    requires i != m
    ensures ValidRun(EMPTY, before) && ValidRun(EMPTY, before + [Update(1)])
    ensures Destroyed(Run(EMPTY, before), 1) && !Destroyed(Run(EMPTY, before + [Update(1)]), 1)
  {
    hide ValidRun, Run;
    before := TwoUnderWay(i, m);
    var b, c := Job(Approval(1, i, false), 4, 6), Job(Release(1), 5, 21);
    var s1 := State(map[1 := Row(5, i, m)], map[1 := b]);
    var s2 := State(map[1 := Row(5, i, m)], map[1 := b, 2 := c]);
    var s3, s4 := State(map[1 := Row(21, i, m)], map[1 := b]), State(map[1 := Row(6, i, m)], map[]);
    Extend(before, s1, Select(2, Release(1)), s2);
    before := before + [Select(2, Release(1))];
    Extend(before, s2, Update(2), s3);
    before := before + [Update(2)];
    Extend(before, s3, Update(1), s4);
  }

  /** Two releases that both select before either updates both succeed. */
  lemma RaceReleasesTwice(i: Bytes, m: Bytes) returns (before: seq<Step>)
    requires i != m
    ensures ValidRun(EMPTY, before)
    ensures var s := Run(EMPTY, before);
      Enabled(s, Update(2)) && Released(s, Update(2), 1)
      && Enabled(Exec(s, Update(2)), Update(3)) && Released(Exec(s, Update(2)), Update(3), 1)
  {
    hide ValidRun, Run;
    before := TwoUnderWay(i, m);
    var b, c := Job(Approval(1, i, false), 4, 6), Job(Release(1), 5, 21);
    var rows := map[1 := Row(5, i, m)];
    var s1, s2 := State(rows, map[1 := b]), State(rows, map[1 := b, 2 := c]);
    var s3 := State(rows, map[1 := b, 2 := c, 3 := c]);
    Extend(before, s1, Select(2, Release(1)), s2);
    before := before + [Select(2, Release(1))];
    Extend(before, s2, Select(3, Release(1)), s3);
    before := before + [Select(3, Release(1))];
  }
}
