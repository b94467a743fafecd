// The media library: an upload is requested, put to object storage by the browser,
// confirmed into the table, resolved by a permalink, and deleted. Redis, the table and
// the storage change one effect at a time, and a handler can fail between any two.
module Media {
  import opened Options
  import opened Sequences
  import opened Uuids
  import opened Filenames
  import opened RedisServer

  datatype Pending = Pending(filename: string, contentType: string, uploadedBy: string)

  datatype Reported = Reported(sizeBytes: Option<int>, durationSeconds: Option<real>)

  datatype Row = Row(objectKey: string, pending: Pending, reported: Reported)

  // A handler between two of its effects.
  datatype Task =
    | Confirming(key: string, pending: Pending, reported: Reported)   // key taken, row not inserted
    | Deleting(id: string, key: string)                               // row read, object not deleted
    | DeletingRow(id: string, key: string)                            // object deleted, row not

  datatype Asked = Asked(upload: Uuid, name: string, pending: Pending)

  datatype State = State(
    pending: map<string, Pending>,     // Redis, by object key
    rows: map<string, Row>,            // the table, by media id
    objects: set<string>,              // keys in object storage
    tasks: map<nat, Task>,
    // History, for stating what holds:
    uploads: set<Uuid>,                // upload ids used
    requested: map<string, Asked>,     // what was asked for each object key
    taken: map<string, nat>,           // the task that took each key out of Redis
    confirmed: map<string, string>,    // object key of every row ever inserted
    owner: map<string, string>,        // media id of every object key ever inserted
    retired: set<string>,              // media ids whose row was deleted
    late: set<string>)                 // keys put again after their confirmation, and not removed since

  datatype Label =
    | Request(admin: string, filename: string, contentType: string, upload: Uuid, stored: bool)
    | Put(key: string)
    | Expire(key: string)
    | Take(task: nat, key: string, reported: Reported, reply: bool)
    | Insert(task: nat, id: string, ok: bool)
    | Select(task: nat, id: string)
    | DeleteObject(task: nat, effect: bool, ok: bool)
    | DeleteRow(task: nat, effect: bool)
    | Crash(task: nat)

  predicate IsAudio(contentType: string) {
    "audio/" <= contentType
  }

  // `name` is the sanitised file name; upload ids are fresh random identifiers.
  function AskFor(s: State, upload: Uuid, name: string, p: Pending, stored: bool): State {
    if upload in s.uploads then s
    else
      var key := ObjectKey(upload, name);
      s.(pending := if stored then s.pending[key := p] else s.pending,
         uploads := s.uploads + {upload}, requested := s.requested[key := Asked(upload, name, p)])
  }

  function PutObject(s: State, key: string): State {
    if key !in s.requested then s
    else s.(objects := s.objects + {key}, late := if key in s.owner then s.late + {key} else s.late)
  }

  function TakeKey(s: State, task: nat, key: string, reported: Reported, reply: bool): State {
    if task in s.tasks || key !in s.pending then s
    else s.(pending := s.pending - {key}, taken := s.taken[key := task],
            tasks := if reply then s.tasks[task := Confirming(key, s.pending[key], reported)] else s.tasks)
  }

  function Drop(s: State, task: nat): State {
    s.(tasks := s.tasks - {task})
  }

  // Media ids are fresh random identifiers too. The table refuses a second row for an
  // object key.
  function InsertRow(s: State, task: nat, id: string, ok: bool): State {
    if task !in s.tasks || !s.tasks[task].Confirming? || id in s.confirmed then s
    else
      var t := s.tasks[task];
      if !ok || exists r :: r in s.rows && s.rows[r].objectKey == t.key then Drop(s, task)
      else Drop(s, task).(rows := s.rows[id := Row(t.key, t.pending, t.reported)],
                          confirmed := s.confirmed[id := t.key], owner := s.owner[t.key := id])
  }

  function SelectRow(s: State, task: nat, id: string): State {
    if task in s.tasks || id !in s.rows then s
    else s.(tasks := s.tasks[task := Deleting(id, s.rows[id].objectKey)])
  }

  // The object may be gone although the storage reports a failure; likewise a row below.
  function RemoveObject(s: State, task: nat, effect: bool, ok: bool): State {
    if task !in s.tasks || !s.tasks[task].Deleting? then s
    else
      var t := s.tasks[task];
      var s' := if effect || ok then s.(objects := s.objects - {t.key}, late := s.late - {t.key}) else s;
      if ok then s'.(tasks := s.tasks[task := DeletingRow(t.id, t.key)]) else Drop(s', task)
  }

  function RemoveRow(s: State, task: nat, effect: bool): State {
    if task !in s.tasks || !s.tasks[task].DeletingRow? then s
    else
      var id := s.tasks[task].id;
      if effect && id in s.rows then Drop(s, task).(rows := s.rows - {id}, retired := s.retired + {id})
      else Drop(s, task)
  }

  function Step(unicode: char -> bool, s: State, l: Label): State {
    match l
    case Request(admin, filename, contentType, upload, stored) =>
      var name := Sanitize(filename, unicode);
      if IsAudio(contentType) && name.Name?
      then AskFor(s, upload, name.name, Pending(filename, contentType, admin), stored) else s
    case Put(key) => PutObject(s, key)
    case Expire(key) => s.(pending := s.pending - {key})
    case Take(task, key, reported, reply) => TakeKey(s, task, key, reported, reply)
    case Insert(task, id, ok) => InsertRow(s, task, id, ok)
    case Select(task, id) => SelectRow(s, task, id)
    case DeleteObject(task, effect, ok) => RemoveObject(s, task, effect, ok)
    case DeleteRow(task, effect) => RemoveRow(s, task, effect)
    case Crash(task) => Drop(s, task)
  }

  const EMPTY := State(map[], map[], {}, map[], {}, map[], map[], map[], map[], {}, {})

  function Run(unicode: char -> bool, ls: seq<Label>): State {
    if ls == [] then EMPTY
    else Step(unicode, Run(unicode, ls[..|ls| - 1]), ls[|ls| - 1])
  }

  // The object a permalink leads to.
  function Resolve(s: State, id: string): Option<string> {
    if id in s.rows then Some(s.rows[id].objectKey) else None
  }

  // ------------------------------------------------------------------
  // Invariant
  // ------------------------------------------------------------------

  // Each part of the invariant speaks of the components it constrains.
  ghost predicate GoodUploads(uploads: set<Uuid>, requested: map<string, Asked>) {
    forall k :: k in requested ==>
      var a := requested[k];
      a.upload in uploads && k == ObjectKey(a.upload, a.name) && IsAudio(a.pending.contentType)
  }

  // A key is asked for once, then taken once.
  ghost predicate GoodPending(pending: map<string, Pending>, requested: map<string, Asked>, taken: map<string, nat>) {
    && (forall k :: k in pending ==> k in requested && pending[k] == requested[k].pending && k !in taken)
    && (forall k :: k in taken ==> k in requested)
  }

  ghost predicate GoodConfirmings(
    tasks: map<nat, Task>, requested: map<string, Asked>, taken: map<string, nat>, owner: map<string, string>
  ) {
    forall t :: t in tasks && tasks[t].Confirming? ==>
      var k := tasks[t].key;
      && k in taken && taken[k] == t && k !in owner
      && k in requested && tasks[t].pending == requested[k].pending
  }

  // `confirmed` and `owner` are inverse to each other: one id for each key.
  ghost predicate GoodHistory(confirmed: map<string, string>, owner: map<string, string>, taken: map<string, nat>) {
    && (forall id :: id in confirmed ==> confirmed[id] in owner && owner[confirmed[id]] == id)
    && (forall k :: k in owner ==> owner[k] in confirmed && confirmed[owner[k]] == k && k in taken)
  }

  ghost predicate GoodRows(rows: map<string, Row>, confirmed: map<string, string>, retired: set<string>) {
    && (forall id :: id in rows ==> id in confirmed && confirmed[id] == rows[id].objectKey && id !in retired)
    && (forall id :: id in confirmed ==> id in rows || id in retired)
    && retired <= confirmed.Keys
  }

  ghost predicate GoodDetails(rows: map<string, Row>, requested: map<string, Asked>) {
    forall id :: id in rows ==>
      rows[id].objectKey in requested && rows[id].pending == requested[rows[id].objectKey].pending
  }

  ghost predicate GoodDeletes(
    tasks: map<nat, Task>, confirmed: map<string, string>, objects: set<string>, late: set<string>
  ) {
    && (forall t :: t in tasks && !tasks[t].Confirming? ==>
          tasks[t].id in confirmed && confirmed[tasks[t].id] == tasks[t].key)
    && (forall t :: t in tasks && tasks[t].DeletingRow? ==> tasks[t].key !in objects || tasks[t].key in late)
  }

  ghost predicate GoodObjects(
    confirmed: map<string, string>, objects: set<string>, late: set<string>, rows: map<string, Row>
  ) {
    && (forall id :: id in confirmed && confirmed[id] in objects && confirmed[id] !in late ==> id in rows)
    && late <= objects
  }

  ghost predicate Good(s: State) {
    && GoodUploads(s.uploads, s.requested)
    && GoodPending(s.pending, s.requested, s.taken)
    && GoodConfirmings(s.tasks, s.requested, s.taken, s.owner)
    && GoodHistory(s.confirmed, s.owner, s.taken)
    && GoodRows(s.rows, s.confirmed, s.retired)
    && GoodDetails(s.rows, s.requested)
    && GoodDeletes(s.tasks, s.confirmed, s.objects, s.late)
    && GoodObjects(s.confirmed, s.objects, s.late, s.rows)
  }

  lemma {:induction false} FreshKey(s: State, upload: Uuid, name: string)
    requires GoodUploads(s.uploads, s.requested) && upload !in s.uploads
    ensures ObjectKey(upload, name) !in s.requested
  {
    var key := ObjectKey(upload, name);
    if key in s.requested {
      KeySplits(upload, name, s.requested[key].upload, s.requested[key].name);
    }
  }

  // Asking for a new key disturbs nothing said of the old ones.
  lemma {:induction false} AskedGrows(s: State, key: string, a: Asked)
    requires Good(s) && key !in s.requested
    ensures var requested := s.requested[key := a];
      && GoodPending(s.pending, requested, s.taken)
      && GoodPending(s.pending[key := a.pending], requested, s.taken)
      && GoodConfirmings(s.tasks, requested, s.taken, s.owner)
      && GoodDetails(s.rows, requested)
  {
    hide GoodUploads, GoodHistory, GoodRows, GoodDeletes, GoodObjects;
    assert GoodPending(s.pending, s.requested[key := a], s.taken) by {
      hide GoodConfirmings, GoodDetails;
    }
    assert GoodPending(s.pending[key := a.pending], s.requested[key := a], s.taken) by {
      hide GoodConfirmings, GoodDetails;
    }
    hide GoodPending;
  }

  lemma {:induction false} AskGood(s: State, upload: Uuid, name: string, p: Pending, stored: bool)
    requires Good(s) && IsAudio(p.contentType)
    ensures Good(AskFor(s, upload, name, p, stored))
  {
    if upload !in s.uploads {
      FreshKey(s, upload, name);
      var a := Asked(upload, name, p);
      AskedGrows(s, ObjectKey(upload, name), a);
      hide IsAudio, GoodPending, GoodConfirmings, GoodDetails, GoodHistory, GoodRows, GoodDeletes, GoodObjects;
      assert GoodUploads(s.uploads + {upload}, s.requested[ObjectKey(upload, name) := a]);
      hide GoodUploads, ObjectKey;
    }
  }

  lemma {:induction false} KeyTaken(s: State, task: nat, key: string)
    requires GoodPending(s.pending, s.requested, s.taken) && key in s.pending
    requires GoodHistory(s.confirmed, s.owner, s.taken)
    ensures key !in s.taken && key !in s.owner
    ensures key in s.requested && s.pending[key] == s.requested[key].pending
    ensures GoodPending(s.pending - {key}, s.requested, s.taken[key := task])
    ensures GoodHistory(s.confirmed, s.owner, s.taken[key := task])
  {
  }

  lemma {:induction false} TaskTakes(s: State, task: nat, key: string, t: Task)
    requires GoodConfirmings(s.tasks, s.requested, s.taken, s.owner)
    requires GoodDeletes(s.tasks, s.confirmed, s.objects, s.late)
    requires task !in s.tasks && key !in s.taken && key !in s.owner && key in s.requested
    requires t.Confirming? && t.key == key && t.pending == s.requested[key].pending
    ensures GoodConfirmings(s.tasks, s.requested, s.taken[key := task], s.owner)
    ensures GoodConfirmings(s.tasks[task := t], s.requested, s.taken[key := task], s.owner)
    ensures GoodDeletes(s.tasks[task := t], s.confirmed, s.objects, s.late)
  {
  }

  lemma {:induction false} TakeGood(s: State, task: nat, key: string, reported: Reported, reply: bool)
    requires Good(s)
    ensures Good(TakeKey(s, task, key, reported, reply))
  {
    hide GoodUploads, GoodRows, GoodDetails, GoodObjects, GoodPending, GoodHistory, GoodConfirmings, GoodDeletes;
    if task !in s.tasks && key in s.pending {
      KeyTaken(s, task, key);
      TaskTakes(s, task, key, Confirming(key, s.pending[key], reported));
    }
  }

  lemma {:induction false} OwnedOnce(
    confirmed: map<string, string>, owner: map<string, string>, taken: map<string, nat>, id: string, key: string
  )
    requires GoodHistory(confirmed, owner, taken) && id !in confirmed && key !in owner && key in taken
    ensures GoodHistory(confirmed[id := key], owner[key := id], taken)
  {
  }

  lemma {:induction false} RowInserted(s: State, id: string, row: Row)
    requires GoodRows(s.rows, s.confirmed, s.retired) && id !in s.confirmed
    requires GoodObjects(s.confirmed, s.objects, s.late, s.rows)
    ensures GoodRows(s.rows[id := row], s.confirmed[id := row.objectKey], s.retired)
    ensures GoodObjects(s.confirmed[id := row.objectKey], s.objects, s.late, s.rows[id := row])
  {
  }

  lemma {:induction false} ConfirmationDone(s: State, task: nat, id: string)
    requires task in s.tasks && s.tasks[task].Confirming? && id !in s.confirmed
    requires GoodConfirmings(s.tasks, s.requested, s.taken, s.owner)
    requires GoodDeletes(s.tasks, s.confirmed, s.objects, s.late)
    ensures var key := s.tasks[task].key;
      && GoodConfirmings(s.tasks - {task}, s.requested, s.taken, s.owner[key := id])
      && GoodDeletes(s.tasks - {task}, s.confirmed[id := key], s.objects, s.late)
  {
  }

  lemma {:induction false} DetailsKept(s: State, id: string, row: Row)
    requires GoodDetails(s.rows, s.requested)
    requires row.objectKey in s.requested && row.pending == s.requested[row.objectKey].pending
    ensures GoodDetails(s.rows[id := row], s.requested)
  {
  }

  lemma {:induction false} InsertGood(s: State, task: nat, id: string, ok: bool)
    requires Good(s)
    ensures Good(InsertRow(s, task, id, ok))
  {
    DropGood(s, task);
    if task in s.tasks && s.tasks[task].Confirming? && id !in s.confirmed {
      var t := s.tasks[task];
      var row := Row(t.key, t.pending, t.reported);
      assert t.key in s.taken && t.key !in s.owner
        && t.key in s.requested && t.pending == s.requested[t.key].pending by {
        hide GoodUploads, GoodPending, GoodHistory, GoodRows, GoodDetails, GoodDeletes, GoodObjects;
      }
      hide GoodUploads, GoodPending, GoodConfirmings, GoodHistory, GoodRows, GoodDetails, GoodDeletes, GoodObjects;
      OwnedOnce(s.confirmed, s.owner, s.taken, id, t.key);
      RowInserted(s, id, row);
      ConfirmationDone(s, task, id);
      DetailsKept(s, id, row);
    }
  }

  lemma {:induction false} SelectGood(s: State, task: nat, id: string)
    requires Good(s)
    ensures Good(SelectRow(s, task, id))
  {
    hide GoodUploads, GoodPending, GoodHistory, GoodDetails, GoodObjects;
  }

  lemma {:induction false} RemoveObjectGood(s: State, task: nat, effect: bool, ok: bool)
    requires Good(s)
    ensures Good(RemoveObject(s, task, effect, ok))
  {
    hide GoodUploads, GoodPending, GoodHistory, GoodRows, GoodDetails;
  }

  lemma {:induction false} RowRemoved(s: State, id: string)
    requires GoodRows(s.rows, s.confirmed, s.retired) && GoodDetails(s.rows, s.requested)
    requires GoodObjects(s.confirmed, s.objects, s.late, s.rows)
    requires id in s.rows && (s.confirmed[id] !in s.objects || s.confirmed[id] in s.late)
    ensures GoodRows(s.rows - {id}, s.confirmed, s.retired + {id})
    ensures GoodDetails(s.rows - {id}, s.requested)
    ensures GoodObjects(s.confirmed, s.objects, s.late, s.rows - {id})
  {
    assert GoodDetails(s.rows - {id}, s.requested) by {
      hide GoodRows, GoodObjects;
    }
    hide GoodDetails;
  }

  lemma {:induction false} RemoveRowGood(s: State, task: nat, effect: bool)
    requires Good(s)
    ensures Good(RemoveRow(s, task, effect))
  {
    DropGood(s, task);
    if task in s.tasks && s.tasks[task].DeletingRow? && s.tasks[task].id in s.rows {
      RowRemoved(s, s.tasks[task].id);
    }
    hide GoodUploads, GoodPending, GoodConfirmings, GoodHistory, GoodRows, GoodDetails, GoodDeletes, GoodObjects;
  }

  lemma {:induction false} PutGood(s: State, key: string)
    requires Good(s)
    ensures Good(PutObject(s, key))
  {
    hide GoodUploads, GoodPending, GoodConfirmings, GoodRows, GoodDetails;
  }

  lemma {:induction false} ExpireGood(s: State, key: string)
    requires Good(s)
    ensures Good(s.(pending := s.pending - {key}))
  {
    hide GoodUploads, GoodConfirmings, GoodHistory, GoodRows, GoodDetails, GoodDeletes, GoodObjects;
  }

  lemma {:induction false} DropGood(s: State, task: nat)
    requires Good(s)
    ensures Good(Drop(s, task))
  {
    hide GoodUploads, GoodPending, GoodHistory, GoodRows, GoodDetails, GoodObjects;
  }

  lemma {:induction false} StepGood(unicode: char -> bool, s: State, l: Label)
    requires Good(s)
    ensures Good(Step(unicode, s, l))
  {
    hide Good, AskFor, PutObject, TakeKey, InsertRow, SelectRow, RemoveObject, RemoveRow, Drop;
    match l
    case Request(admin, filename, contentType, upload, stored) =>
      var name := Sanitize(filename, unicode);
      if IsAudio(contentType) && name.Name? {
        AskGood(s, upload, name.name, Pending(filename, contentType, admin), stored);
      }
    case Put(key) => PutGood(s, key);
    case Expire(key) => ExpireGood(s, key);
    case Take(task, key, reported, reply) => TakeGood(s, task, key, reported, reply);
    case Insert(task, id, ok) => InsertGood(s, task, id, ok);
    case Select(task, id) => SelectGood(s, task, id);
    case DeleteObject(task, effect, ok) => RemoveObjectGood(s, task, effect, ok);
    case DeleteRow(task, effect) => RemoveRowGood(s, task, effect);
    case Crash(task) => DropGood(s, task);
  }

  lemma {:induction false} RunGood(unicode: char -> bool, ls: seq<Label>)
    ensures Good(Run(unicode, ls))
  {
    if ls != [] {
      RunGood(unicode, ls[..|ls| - 1]);
      StepGood(unicode, Run(unicode, ls[..|ls| - 1]), ls[|ls| - 1]);
    }
  }

  // ------------------------------------------------------------------
  // What holds in every run
  // ------------------------------------------------------------------

  // Whatever fails in between: no object key has ever had two rows, and every row says
  // of its object what was asked for that very key, with an audio content type.
  lemma {:induction false} RowsAreAsRequested(unicode: char -> bool, ls: seq<Label>)
    ensures var s := Run(unicode, ls);
      && (forall id, id' :: id in s.confirmed && id' in s.confirmed && id != id' ==>
            s.confirmed[id] != s.confirmed[id'])
      && forall id :: id in s.rows ==>
           && id in s.confirmed && s.confirmed[id] == s.rows[id].objectKey
           && s.rows[id].objectKey in s.requested
           && s.rows[id].pending == s.requested[s.rows[id].objectKey].pending
           && IsAudio(s.rows[id].pending.contentType)
  {
    RunGood(unicode, ls);
  }

  // What the operations leave alone.
  lemma {:induction false} AskFrame(s: State, upload: Uuid, name: string, p: Pending, stored: bool)
    ensures var t := AskFor(s, upload, name, p, stored);
      t.rows == s.rows && t.objects == s.objects && t.late == s.late
  {
    hide ObjectKey;
  }

  lemma {:induction false} TakeFrame(s: State, task: nat, key: string, reported: Reported, reply: bool)
    ensures var t := TakeKey(s, task, key, reported, reply);
      t.rows == s.rows && t.objects == s.objects && t.late == s.late && t.requested == s.requested
        && t.pending.Keys <= s.pending.Keys
  {
  }

  lemma {:induction false} InsertFrame(s: State, task: nat, id: string, ok: bool)
    ensures var t := InsertRow(s, task, id, ok);
      t.objects == s.objects && t.late == s.late && t.requested == s.requested && t.pending == s.pending
  {
  }

  lemma {:induction false} SelectFrame(s: State, task: nat, id: string)
    ensures var t := SelectRow(s, task, id);
      && t.rows == s.rows && t.objects == s.objects && t.late == s.late
      && t.requested == s.requested && t.pending == s.pending
  {
  }

  lemma {:induction false} RemoveObjectFrame(s: State, task: nat, effect: bool, ok: bool)
    ensures var t := RemoveObject(s, task, effect, ok);
      t.rows == s.rows && t.requested == s.requested && t.pending == s.pending
  {
  }

  lemma {:induction false} RemoveRowFrame(s: State, task: nat, effect: bool)
    ensures var t := RemoveRow(s, task, effect);
      t.objects == s.objects && t.late == s.late && t.requested == s.requested && t.pending == s.pending
  {
  }

  lemma {:induction false} StepFrame(unicode: char -> bool, s: State, l: Label)
    ensures var t := Step(unicode, s, l);
      && (!l.Request? ==> t.requested == s.requested)
      && (!l.Insert? && !l.DeleteRow? ==> t.rows == s.rows)
      && (!l.Put? && !l.DeleteObject? ==> t.objects == s.objects && t.late == s.late)
  {
    hide AskFor, TakeKey, InsertRow, SelectRow, RemoveObject, RemoveRow, Sanitize, ObjectKey, IsAudio;
    match l
    case Request(admin, filename, contentType, upload, stored) =>
      var name := Sanitize(filename, unicode);
      if name.Name? {
        AskFrame(s, upload, name.name, Pending(filename, contentType, admin), stored);
      }
    case Take(task, key, reported, reply) => TakeFrame(s, task, key, reported, reply);
    case Insert(task, id, ok) => InsertFrame(s, task, id, ok);
    case Select(task, id) => SelectFrame(s, task, id);
    case DeleteObject(task, effect, ok) => RemoveObjectFrame(s, task, effect, ok);
    case DeleteRow(task, effect) => RemoveRowFrame(s, task, effect);
    case _ =>
  }

  // Step k asked for the object key, with the file name as given.
  ghost predicate AskedAt(unicode: char -> bool, ls: seq<Label>, k: nat, key: string, p: Pending) {
    && k < |ls| && ls[k].Request?
    && p == Pending(ls[k].filename, ls[k].contentType, ls[k].admin)
    && |p.contentType| >= 6 && p.contentType[..6] == "audio/"
    && Sanitize(ls[k].filename, unicode).Name?
    && key == ObjectKey(ls[k].upload, Sanitize(ls[k].filename, unicode).name)
  }

  // Step j took the key out of Redis, with what the browser reported.
  ghost predicate TookAt(ls: seq<Label>, j: nat, task: nat, key: string, reported: Reported) {
    j < |ls| && ls[j] == Take(task, key, reported, true)
  }

  lemma {:induction false} StepAsks(unicode: char -> bool, s: State, l: Label, key: string)
    requires key in Step(unicode, s, l).requested
    ensures key !in s.requested || Step(unicode, s, l).requested[key] != s.requested[key] ==>
      && l.Request? && IsAudio(l.contentType) && Sanitize(l.filename, unicode).Name?
      && key == ObjectKey(l.upload, Sanitize(l.filename, unicode).name)
      && Step(unicode, s, l).requested[key].pending == Pending(l.filename, l.contentType, l.admin)
  {
    hide Sanitize, ObjectKey, IsAudio, PutObject, TakeKey, InsertRow, SelectRow, RemoveObject, RemoveRow, Drop;
    if !l.Request? {
      StepFrame(unicode, s, l);
      hide Step;
    }
  }

  lemma {:induction false} RequestedWasAsked(unicode: char -> bool, ls: seq<Label>, key: string) returns (k: nat)
    requires key in Run(unicode, ls).requested
    ensures AskedAt(unicode, ls, k, key, Run(unicode, ls).requested[key].pending)
  {
    var n := |ls| - 1;
    var before := Run(unicode, ls[..n]);
    StepAsks(unicode, before, ls[n], key);
    hide Step, Sanitize, ObjectKey;
    if key in before.requested && Run(unicode, ls).requested[key] == before.requested[key] {
      k := RequestedWasAsked(unicode, ls[..n], key);
      assert ls[..n][k] == ls[k];
    } else {
      k := n;
      assert "audio/" == ls[n].contentType[..6];
    }
  }

  // No confirmation is under way in t that was not in s.
  ghost predicate KeepsConfirmings(s: State, t: State) {
    forall task :: task in t.tasks && t.tasks[task].Confirming? ==> task in s.tasks && s.tasks[task] == t.tasks[task]
  }

  lemma {:induction false} InsertConfirmsNothing(s: State, task: nat, id: string, ok: bool)
    ensures KeepsConfirmings(s, InsertRow(s, task, id, ok))
  {
  }

  lemma {:induction false} SelectConfirmsNothing(s: State, task: nat, id: string)
    ensures KeepsConfirmings(s, SelectRow(s, task, id))
  {
  }

  lemma {:induction false} DeleteConfirmsNothing(s: State, task: nat, effect: bool, ok: bool)
    ensures KeepsConfirmings(s, RemoveObject(s, task, effect, ok))
  {
  }

  lemma {:induction false} RemoveConfirmsNothing(s: State, task: nat, effect: bool)
    ensures KeepsConfirmings(s, RemoveRow(s, task, effect))
  {
  }

  lemma {:induction false} OthersTakeNothing(unicode: char -> bool, s: State, l: Label)
    requires !l.Take?
    ensures KeepsConfirmings(s, Step(unicode, s, l))
  {
    hide InsertRow, SelectRow, RemoveObject, RemoveRow, Sanitize, ObjectKey, IsAudio;
    match l
    case Insert(task, id, ok) => InsertConfirmsNothing(s, task, id, ok);
    case Select(task, id) => SelectConfirmsNothing(s, task, id);
    case DeleteObject(task, effect, ok) => DeleteConfirmsNothing(s, task, effect, ok);
    case DeleteRow(task, effect) => RemoveConfirmsNothing(s, task, effect);
    case _ =>
  }

  lemma {:induction false} CrashConfirmsNothing(unicode: char -> bool, s: State, task: nat)
    ensures var t := Step(unicode, s, Crash(task));
      task !in t.tasks && forall other :: other in t.tasks ==> other in s.tasks && s.tasks[other] == t.tasks[other]
  {
  }

  lemma {:induction false} StepTakes(unicode: char -> bool, s: State, l: Label, task: nat)
    requires task in Step(unicode, s, l).tasks && Step(unicode, s, l).tasks[task].Confirming?
    ensures var t := Step(unicode, s, l).tasks[task];
      || (task in s.tasks && s.tasks[task] == t && l != Crash(task))
      || l == Take(task, t.key, t.reported, true)
  {
    if l.Crash? {
      hide *;
      CrashConfirmsNothing(unicode, s, l.task);
    } else if !l.Take? {
      OthersTakeNothing(unicode, s, l);
      hide Step;
    }
    hide AskFor, PutObject, InsertRow, SelectRow, RemoveObject, RemoveRow, Sanitize, ObjectKey, IsAudio;
  }

  lemma {:induction false} ConfirmingWasTaken(unicode: char -> bool, ls: seq<Label>, task: nat) returns (j: nat)
    requires task in Run(unicode, ls).tasks && Run(unicode, ls).tasks[task].Confirming?
    ensures TookAt(ls, j, task, Run(unicode, ls).tasks[task].key, Run(unicode, ls).tasks[task].reported)
    ensures forall m :: j < m < |ls| ==> ls[m] != Crash(task)
  {
    var n := |ls| - 1;
    var before := Run(unicode, ls[..n]);
    StepTakes(unicode, before, ls[n], task);
    hide Step;
    if task in before.tasks && before.tasks[task] == Run(unicode, ls).tasks[task] && ls[n] != Crash(task) {
      j := ConfirmingWasTaken(unicode, ls[..n], task);
      assert forall m :: 0 <= m < n ==> ls[..n][m] == ls[m];
    } else {
      j := n;
    }
  }

  lemma {:induction false} InsertedRow(s: State, task: nat, id: string, ok: bool, row: string)
    requires row in InsertRow(s, task, id, ok).rows
    ensures var r := InsertRow(s, task, id, ok).rows[row];
      || (row in s.rows && s.rows[row] == r)
      || (id == row && ok && task in s.tasks && s.tasks[task].Confirming?
          && r == Row(s.tasks[task].key, s.tasks[task].pending, s.tasks[task].reported))
  {
  }

  lemma {:induction false} RemovedRow(s: State, task: nat, effect: bool, row: string)
    requires row in RemoveRow(s, task, effect).rows
    ensures row in s.rows && s.rows[row] == RemoveRow(s, task, effect).rows[row]
  {
  }

  lemma {:induction false} StepInserts(unicode: char -> bool, s: State, l: Label, id: string)
    requires id in Step(unicode, s, l).rows
    ensures var row := Step(unicode, s, l).rows[id];
      || (id in s.rows && s.rows[id] == row)
      || (l.Insert? && l.id == id && l.ok && l.task in s.tasks && s.tasks[l.task].Confirming?
          && row == Row(s.tasks[l.task].key, s.tasks[l.task].pending, s.tasks[l.task].reported))
  {
    hide InsertRow;
    if l.Insert? {
      InsertedRow(s, l.task, l.id, l.ok, id);
    } else if l.DeleteRow? {
      RemovedRow(s, l.task, l.effect, id);
    } else {
      StepFrame(unicode, s, l);
      hide Step;
    }
    hide RemoveRow;
  }

  lemma {:induction false} RowWasInserted(unicode: char -> bool, ls: seq<Label>, id: string) returns (j: nat, k: nat)
    requires id in Run(unicode, ls).rows
    ensures var row := Run(unicode, ls).rows[id];
      && k < |ls| && ls[k].Insert? && ls[k].id == id && ls[k].ok && j < k
      && TookAt(ls, j, ls[k].task, row.objectKey, row.reported)
      && (forall m :: j < m < k ==> ls[m] != Crash(ls[k].task))
  {
    var n := |ls| - 1;
    var before := Run(unicode, ls[..n]);
    StepInserts(unicode, before, ls[n], id);
    hide Step;
    if id in before.rows && before.rows[id] == Run(unicode, ls).rows[id] {
      j, k := RowWasInserted(unicode, ls[..n], id);
      assert forall m :: 0 <= m < n ==> ls[..n][m] == ls[m];
    } else {
      k := n;
      j := ConfirmingWasTaken(unicode, ls[..n], ls[n].task);
      assert forall m :: 0 <= m < n ==> ls[..n][m] == ls[m];
    }
  }

  // Every row comes from a request, a confirmation and an insertion of the run: it has the
  // file name, content type and admin of the request as they were given, what the browser
  // reported at the confirmation, and the key made of the upload and the sanitised name.
  lemma {:induction false} RowComesFromRun(unicode: char -> bool, ls: seq<Label>, id: string)
    returns (i: nat, j: nat, k: nat)
    requires id in Run(unicode, ls).rows
    ensures var row := Run(unicode, ls).rows[id];
      && AskedAt(unicode, ls, i, row.objectKey, row.pending)
      && k < |ls| && ls[k].Insert? && ls[k].id == id && ls[k].ok && j < k
      && TookAt(ls, j, ls[k].task, row.objectKey, row.reported)
      && (forall m :: j < m < k ==> ls[m] != Crash(ls[k].task))
  {
    RowsAreAsRequested(unicode, ls);
    hide Step, Run;
    i := RequestedWasAsked(unicode, ls, Run(unicode, ls).rows[id].objectKey);
    j, k := RowWasInserted(unicode, ls, id);
  }

  lemma {:induction false} AskPends(s: State, upload: Uuid, name: string, p: Pending, stored: bool, key: string)
    requires key in AskFor(s, upload, name, p, stored).pending
    ensures key in s.pending || (stored && key == ObjectKey(upload, name))
  {
    hide ObjectKey;
  }

  lemma {:induction false} StepPendsNothing(unicode: char -> bool, s: State, l: Label)
    requires !l.Request?
    ensures Step(unicode, s, l).pending.Keys <= if l.Expire? then s.pending.Keys - {l.key} else s.pending.Keys
  {
    hide TakeKey, InsertRow, SelectRow, RemoveObject, RemoveRow;
    match l
    case Take(task, key, reported, reply) => TakeFrame(s, task, key, reported, reply);
    case Insert(task, id, ok) => InsertFrame(s, task, id, ok);
    case Select(task, id) => SelectFrame(s, task, id);
    case DeleteObject(task, effect, ok) => RemoveObjectFrame(s, task, effect, ok);
    case DeleteRow(task, effect) => RemoveRowFrame(s, task, effect);
    case _ =>
  }

  lemma {:induction false} LastStep(unicode: char -> bool, ls: seq<Label>)
    ensures ls != [] ==> Run(unicode, ls) == Step(unicode, Run(unicode, ls[..|ls| - 1]), ls[|ls| - 1])
    ensures ls == [] ==> Run(unicode, ls).pending == map[]
  {
    hide Step;
  }

  lemma {:induction false} StepKeepsPending(unicode: char -> bool, s: State, l: Label, key: string)
    requires key in Step(unicode, s, l).pending
    ensures
      || (key in s.pending && l != Expire(key))
      || (l.Request? && l.stored && Sanitize(l.filename, unicode).Name?
          && key == ObjectKey(l.upload, Sanitize(l.filename, unicode).name))
  {
    hide AskFor, PutObject, TakeKey, InsertRow, SelectRow, RemoveObject, RemoveRow, Drop, Sanitize, ObjectKey, IsAudio;
    if l.Request? {
      var name := Sanitize(l.filename, unicode);
      if IsAudio(l.contentType) && name.Name? {
        AskPends(s, l.upload, name.name, Pending(l.filename, l.contentType, l.admin), l.stored, key);
      }
    } else {
      StepPendsNothing(unicode, s, l);
      hide Step;
    }
  }

  // A key is pending only since a request that Redis stored, and not expired since.
  lemma {:induction false} PendingSince(unicode: char -> bool, ls: seq<Label>, key: string) returns (k: nat)
    requires key in Run(unicode, ls).pending
    ensures k < |ls| && ls[k].Request? && ls[k].stored && Sanitize(ls[k].filename, unicode).Name?
    ensures key == ObjectKey(ls[k].upload, Sanitize(ls[k].filename, unicode).name)
    ensures forall j :: k < j < |ls| ==> ls[j] != Expire(key)
  {
    LastStep(unicode, ls);
    hide *;
    var n := |ls| - 1;
    StepKeepsPending(unicode, Run(unicode, ls[..n]), ls[n], key);
    if key in Run(unicode, ls[..n]).pending && ls[n] != Expire(key) {
      k := PendingSince(unicode, ls[..n], key);
      assert forall j :: 0 <= j < n ==> ls[..n][j] == ls[j];
    } else {
      k := n;
    }
  }

  // A confirmed object in storage has its row, except exactly when the row was deleted
  // and the object put again since. So of a deleted medium the object is in storage
  // exactly when it was put again.
  lemma {:induction false} StoredObjectHasRow(unicode: char -> bool, ls: seq<Label>, id: string)
    requires id in Run(unicode, ls).confirmed
    ensures var s := Run(unicode, ls);
      var key := s.confirmed[id];
      && (key in s.objects ==> (Resolve(s, id) == Some(key) <==> id !in s.retired || key !in s.late))
      && (id in s.retired ==> Resolve(s, id).None? && (key in s.objects <==> key in s.late))
  {
    RunGood(unicode, ls);
    hide Run, GoodUploads, GoodPending, GoodConfirmings, GoodHistory, GoodDeletes, GoodDetails;
  }

  ghost predicate Removes(s: State, l: Label, key: string) {
    && l.DeleteObject? && (l.effect || l.ok)
    && l.task in s.tasks && s.tasks[l.task].Deleting? && s.tasks[l.task].key == key
  }

  // Step k puts a confirmed object again, and nothing removes it after that.
  ghost predicate PutAgainAt(unicode: char -> bool, ls: seq<Label>, k: nat, key: string) {
    && k < |ls| && ls[k] == Put(key) && key in Run(unicode, ls[..k]).owner
    && forall j :: k < j < |ls| ==> !Removes(Run(unicode, ls[..j]), ls[j], key)
  }

  lemma {:induction false} LatePut(s: State, put: string, key: string)
    requires GoodPending(s.pending, s.requested, s.taken) && GoodHistory(s.confirmed, s.owner, s.taken)
    ensures key in PutObject(s, put).late <==> (put == key && key in s.owner) || key in s.late
  {
  }

  lemma {:induction false} LateRemoved(s: State, task: nat, effect: bool, ok: bool, key: string)
    ensures key in RemoveObject(s, task, effect, ok).late
      <==> key in s.late && !Removes(s, DeleteObject(task, effect, ok), key)
  {
  }

  lemma {:induction false} LateStep(unicode: char -> bool, s: State, l: Label, key: string)
    requires Good(s)
    ensures key in Step(unicode, s, l).late
      <==> (l == Put(key) && key in s.owner) || (key in s.late && !Removes(s, l, key))
  {
    if l.Put? {
      LatePut(s, l.key, key);
    } else if l.DeleteObject? {
      LateRemoved(s, l.task, l.effect, l.ok, key);
      hide Removes;
    } else {
      StepFrame(unicode, s, l);
      hide Step;
    }
    hide Good, PutObject, RemoveObject;
  }

  lemma {:induction false} PutAgainNext(unicode: char -> bool, ls: seq<Label>, l: Label, k: nat, key: string)
    requires k < |ls|
    ensures PutAgainAt(unicode, ls + [l], k, key)
      <==> PutAgainAt(unicode, ls, k, key) && !Removes(Run(unicode, ls), l, key)
  {
    hide Run, Removes;
    var all := ls + [l];
    assert all[..k] == ls[..k] && all[..|ls|] == ls;
    assert forall j :: k < j < |ls| ==> all[..j] == ls[..j] && all[j] == ls[j];
    if PutAgainAt(unicode, all, k, key) {
      assert !Removes(Run(unicode, all[..|ls|]), all[|ls|], key);
      forall j | k < j < |ls|
        ensures !Removes(Run(unicode, ls[..j]), ls[j], key)
      {
        assert !Removes(Run(unicode, all[..j]), all[j], key);
      }
    }
  }

  // Which keys are late, read off the run.
  lemma {:induction false} LateIsPutAgain(unicode: char -> bool, ls: seq<Label>, key: string)
    ensures key in Run(unicode, ls).late <==> exists k :: PutAgainAt(unicode, ls, k, key)
  {
    if ls != [] {
      var n := |ls| - 1;
      var before, l := ls[..n], ls[n];
      assert ls == before + [l];
      LateIsPutAgain(unicode, before, key);
      RunGood(unicode, before);
      LateStep(unicode, Run(unicode, before), l, key);
      assert Run(unicode, ls) == Step(unicode, Run(unicode, before), l);
      hide Step, Removes, Good, Run;
      forall k: nat | k < n
        ensures PutAgainAt(unicode, ls, k, key)
          <==> PutAgainAt(unicode, before, k, key) && !Removes(Run(unicode, before), l, key)
      {
        PutAgainNext(unicode, before, l, k, key);
      }
      assert PutAgainAt(unicode, ls, n, key) <==> l == Put(key) && key in Run(unicode, before).owner;
    }
  }

  ghost predicate Extends(s: State, t: State) {
    && s.retired <= t.retired
    && forall id :: id in s.confirmed ==> id in t.confirmed && t.confirmed[id] == s.confirmed[id]
  }

  lemma {:induction false} InsertExtends(s: State, task: nat, id: string, ok: bool)
    ensures Extends(s, InsertRow(s, task, id, ok))
  {
  }

  lemma {:induction false} StepExtends(unicode: char -> bool, s: State, l: Label)
    ensures Extends(s, Step(unicode, s, l))
  {
    if l.Insert? {
      InsertExtends(s, l.task, l.id, l.ok);
    }
    hide InsertRow, Sanitize, ObjectKey;
  }

  lemma {:induction false} RunExtends(unicode: char -> bool, ls: seq<Label>, more: seq<Label>)
    ensures Extends(Run(unicode, ls), Run(unicode, ls + more))
    decreases |more|
  {
    hide Step;
    if more == [] {
      assert ls + more == ls;
    } else {
      var n := |more| - 1;
      RunExtends(unicode, ls, more[..n]);
      assert (ls + more)[..|ls + more| - 1] == ls + more[..n];
      StepExtends(unicode, Run(unicode, ls + more[..n]), more[n]);
      hide Run;
    }
  }

  // A permalink leads to the same object whenever it leads anywhere, and to none for
  // good once its row has been deleted.
  lemma {:induction false} PermalinkIsStable(unicode: char -> bool, ls: seq<Label>, more: seq<Label>, id: string)
    ensures var s, t := Run(unicode, ls), Run(unicode, ls + more);
      && (Resolve(s, id).Some? && Resolve(t, id).Some? ==> Resolve(s, id) == Resolve(t, id))
      && (Resolve(s, id).Some? && Resolve(t, id).None? ==> id in t.retired)
      && (id in s.retired ==> Resolve(t, id).None?)
  {
    RunGood(unicode, ls);
    RunGood(unicode, ls + more);
    RunExtends(unicode, ls, more);
  }

  lemma {:induction false} RunNext(unicode: char -> bool, ls: seq<Label>, l: Label)
    ensures Run(unicode, ls + [l]) == Step(unicode, Run(unicode, ls), l)
  {
    assert (ls + [l])[..|ls|] == ls;
  }

  lemma {:induction false} RunFour(unicode: char -> bool, ls: seq<Label>, a: Label, b: Label, c: Label, d: Label)
    ensures Run(unicode, ls + [a, b, c, d])
         == Step(unicode, Step(unicode, Step(unicode, Step(unicode, Run(unicode, ls), a), b), c), d)
  {
    hide Step, Run;
    RunNext(unicode, ls, a);
    RunNext(unicode, ls + [a], b);
    RunNext(unicode, ls + [a] + [b], c);
    RunNext(unicode, ls + [a] + [b] + [c], d);
    OneByOne(ls, a, b, c, d);
  }

  // One file from request to row, and a deletion followed by another upload.
  function Uploaded(admin: string, upload: Uuid, id: string): seq<Label> {
    var key := ObjectKey(upload, "a");
    [Request(admin, "a", "audio/ogg", upload, true), Put(key),
     Take(0, key, Reported(None, None), true), Insert(0, id, true)]
  }

  function DeletedAndPutAgain(id: string, key: string): seq<Label> {
    [Select(1, id), DeleteObject(1, true, true), DeleteRow(1, true), Put(key)]
  }

  // An object does outlive its row: put again after the deletion, as its upload URL,
  // good for an hour, allows.
  lemma {:induction false} OrphanHappens(unicode: char -> bool, admin: string, upload: Uuid, id: string)
    ensures var key := ObjectKey(upload, "a");
      var s := Run(unicode, Uploaded(admin, upload, id) + DeletedAndPutAgain(id, key));
      && id in s.confirmed && s.confirmed[id] == key
      && key in s.objects && Resolve(s, id).None?
  {
    var key := ObjectKey(upload, "a");
    var ls := Uploaded(admin, upload, id);
    RowHappens(unicode, admin, upload, id);
    hide Run, ObjectKey, Uploaded;
    RunFour(unicode, ls, Select(1, id), DeleteObject(1, true, true), DeleteRow(1, true), Put(key));
    PutAfterDelete(Run(unicode, ls), id, key);
    hide SelectRow, RemoveObject, RemoveRow, PutObject;
  }

  lemma {:induction false} PutAfterDelete(s: State, id: string, key: string)
    requires id in s.rows && s.rows[id].objectKey == key && 1 !in s.tasks && key in s.requested
    requires id in s.confirmed && s.confirmed[id] == key
    ensures var deleted := RemoveRow(RemoveObject(SelectRow(s, 1, id), 1, true, true), 1, true);
      var end := PutObject(deleted, key);
      && id in end.confirmed && end.confirmed[id] == key && key in end.objects && id !in end.rows
  {
    var s1 := SelectRow(s, 1, id);
    assert s1.tasks[1] == Deleting(id, key);
    var s2 := RemoveObject(s1, 1, true, true);
    assert s2.tasks[1] == DeletingRow(id, key) && s2.rows == s.rows;
    hide SelectRow, RemoveObject;
  }

  lemma {:induction false} RowHappens(unicode: char -> bool, admin: string, upload: Uuid, id: string)
    ensures var key := ObjectKey(upload, "a");
      var s := Run(unicode, Uploaded(admin, upload, id));
      && id in s.rows && s.rows[id].objectKey == key && 1 !in s.tasks && key in s.requested
      && id in s.confirmed && s.confirmed[id] == key
  {
    var key := ObjectKey(upload, "a");
    var request := Request(admin, "a", "audio/ogg", upload, true);
    RequestAsks(unicode, admin, upload);
    hide Sanitize, ObjectKey, IsAudio;
    assert Run(unicode, []) == EMPTY;
    hide Run;
    RunFour(unicode, [], request, Put(key), Take(0, key, Reported(None, None), true), Insert(0, id, true));
    assert [] + [request, Put(key), Take(0, key, Reported(None, None), true), Insert(0, id, true)]
        == Uploaded(admin, upload, id);
    FirstRow(key, Asked(upload, "a", Pending("a", "audio/ogg", admin)), Reported(None, None), id);
    hide AskFor, PutObject, TakeKey, InsertRow;
  }

  lemma {:induction false} RequestAsks(unicode: char -> bool, admin: string, upload: Uuid)
    ensures Step(unicode, EMPTY, Request(admin, "a", "audio/ogg", upload, true))
         == AskFor(EMPTY, upload, "a", Pending("a", "audio/ogg", admin), true)
  {
    LetterIsGood(unicode);
    SanitizeKeepsGood("a", unicode);
    hide Sanitize, ObjectKey, AskFor;
    assert "audio/ogg"[..6] == "audio/";
  }

  lemma {:induction false} LetterIsGood(unicode: char -> bool)
    ensures GoodName("a", unicode)
  {
    AsciiBytes("a");
  }

  // From a fresh start: asked for, put, taken and inserted.
  lemma {:induction false} FirstRow(key: string, a: Asked, reported: Reported, id: string)
    requires key == ObjectKey(a.upload, a.name)
    ensures var asked := AskFor(EMPTY, a.upload, a.name, a.pending, true);
      var s := InsertRow(TakeKey(PutObject(asked, key), 0, key, reported, true), 0, id, true);
      && id in s.rows && s.rows[id].objectKey == key && 1 !in s.tasks && key in s.requested
      && id in s.confirmed && s.confirmed[id] == key
  {
    hide ObjectKey;
    var asked := AskFor(EMPTY, a.upload, a.name, a.pending, true);
    var stored := PutObject(asked, key);
    assert key in stored.pending && stored.rows == map[] && stored.tasks == map[] && stored.confirmed == map[];
    var taken := TakeKey(stored, 0, key, reported, true);
    assert 0 in taken.tasks && taken.tasks[0].Confirming? && taken.tasks[0].key == key;
    assert taken.rows == map[] && taken.confirmed == map[] && taken.tasks.Keys == {0};
  }

  // ------------------------------------------------------------------
  // The handlers, in place
  // ------------------------------------------------------------------

  datatype Response =
    | UploadUrl(objectKey: string)
    | Confirmed(row: Row)
    | Redirect(objectKey: string)
    | NoContent
    | BadRequest
    | NotFound
    | ServerError
    | Aborted

  // The steps of one confirmation, and of one deletion, without interruption.
  function Confirm(
    s: State, task: nat, key: string, reported: Reported, reply: bool, id: string, insertOk: bool
  ): State {
    InsertRow(TakeKey(s, task, key, reported, reply), task, id, insertOk)
  }

  function Delete(s: State, task: nat, id: string, s3Effect: bool, s3Ok: bool, rowDeleted: bool): State {
    RemoveRow(RemoveObject(SelectRow(s, task, id), task, s3Effect, s3Ok), task, rowDeleted)
  }

  lemma {:induction false} ConfirmEffect(
    s: State, task: nat, key: string, reported: Reported, reply: bool, id: string, insertOk: bool
  )
    requires task !in s.tasks && id !in s.confirmed
    ensures var s' := Confirm(s, task, key, reported, reply, id, insertOk);
      var inserted := key in s.pending && reply && insertOk && !exists i :: i in s.rows && s.rows[i].objectKey == key;
      && s'.objects == s.objects
      && s'.pending == s.pending - {key}
      && s'.rows == (if inserted then s.rows[id := Row(key, s.pending[key], reported)] else s.rows)
      && (id in s'.confirmed <==> inserted)
  {
    var taken := TakeKey(s, task, key, reported, reply);
    if key !in s.pending {
      assert s.pending - {key} == s.pending;
    }
    assert taken.pending == s.pending - {key};
    hide TakeKey;
  }

  lemma {:induction false} DeleteEffect(s: State, task: nat, id: string, s3Effect: bool, s3Ok: bool, rowDeleted: bool)
    requires task !in s.tasks
    ensures var s' := Delete(s, task, id, s3Effect, s3Ok, rowDeleted);
      && s'.pending == s.pending
      && (id !in s.rows ==> s'.rows == s.rows && s'.objects == s.objects)
      && (id in s.rows ==>
            && s'.objects == (if s3Effect || s3Ok then s.objects - {s.rows[id].objectKey} else s.objects)
            && s'.rows == (if s3Ok && rowDeleted then s.rows - {id} else s.rows)
            && (s3Ok && rowDeleted ==> id in s'.retired))
  {
    var s1 := SelectRow(s, task, id);
    var s2 := RemoveObject(s1, task, s3Effect, s3Ok);
    if id in s.rows {
      assert s1.tasks[task] == Deleting(id, s.rows[id].objectKey) && s1.rows == s.rows && s1.objects == s.objects;
      if s3Ok {
        assert s2.tasks[task] == DeletingRow(id, s.rows[id].objectKey) && s2.rows == s.rows;
      } else {
        assert task !in s2.tasks;
      }
    }
    hide SelectRow, RemoveObject;
  }

  class Library {
    var pending: map<string, Pending>
    var rows: map<string, Row>
    var objects: set<string>

    ghost predicate Represents(s: State)
      reads this
    {
      pending == s.pending && rows == s.rows && objects == s.objects
    }

    constructor ()
      ensures Represents(EMPTY)
    {
      pending, rows, objects := map[], map[], {};
    }

    // A failed SETEX goes unnoticed: the URL is issued all the same.
    method RequestUploadUrl(
      admin: string, filename: string, contentType: string, upload: Uuid, stored: bool,
      unicode: char -> bool, ghost s: State
    ) returns (r: Response)
      requires Represents(s) && upload !in s.uploads
      modifies this`pending
      ensures Represents(Step(unicode, s, Request(admin, filename, contentType, upload, stored)))
      ensures var s' := Step(unicode, s, Request(admin, filename, contentType, upload, stored));
        (r.UploadUrl? <==> upload in s'.uploads) && (r.UploadUrl? ==> r.objectKey in s'.requested)
      ensures r == BadRequest <==> !(|contentType| >= 6 && contentType[..6] == "audio/")
      ensures r == Aborted <==> r != BadRequest && Sanitize(filename, unicode).Panics?
      ensures r == BadRequest || r == Aborted || r.UploadUrl?
      ensures r.UploadUrl? ==> r.objectKey == ObjectKey(upload, Sanitize(filename, unicode).name)
      ensures pending == if r.UploadUrl? && stored
        then old(pending)[r.objectKey := Pending(filename, contentType, admin)] else old(pending)
    {
      hide Sanitize, ObjectKey;
      if !("audio/" <= contentType) {
        return BadRequest;
      }
      var safeName := Sanitize(filename, unicode);
      if safeName.Panics? {
        return Aborted;
      }
      var objectKey := ObjectKey(upload, safeName.name);
      if stored {
        pending := pending[objectKey := Pending(filename, contentType, admin)];
      }
      r := UploadUrl(objectKey);
    }

    method ConfirmUpload(
      objectKey: string, reported: Reported, connected: bool, outcome: Outcome, id: string,
      insertEffect: bool, insertOk: bool, ghost s: State, ghost task: nat
    ) returns (r: Response)
      requires Represents(s) && task !in s.tasks && id !in s.confirmed
      modifies this`pending, this`rows
      ensures !connected || outcome == Lost(false) ==> Represents(s)
      ensures !connected ==> r == ServerError
      ensures connected && outcome != Lost(false) ==>
        var s' := Confirm(s, task, objectKey, reported, outcome == Done, id, insertEffect || insertOk);
        && Represents(s')
        && (r.Confirmed? <==> id in s'.confirmed && insertOk)
        && (r.Confirmed? ==> Resolve(s', id) == Some(objectKey) && r.row == s'.rows[id])
      ensures r == BadRequest <==> connected && (objectKey !in s.pending || outcome.Lost?)
      ensures r == BadRequest || r.Confirmed? || r == ServerError
    {
      if !connected {
        return ServerError;
      }
      if outcome == Lost(false) {
        return BadRequest;
      }
      ConfirmEffect(s, task, objectKey, reported, outcome == Done, id, insertEffect || insertOk);
      hide Confirm;
      if objectKey !in pending {
        return BadRequest;
      }
      var p := pending[objectKey];
      pending := pending - {objectKey};
      if outcome.Lost? {
        return BadRequest;
      }
      if exists i :: i in rows && rows[i].objectKey == objectKey {
        return ServerError;
      }
      if insertEffect || insertOk {
        rows := rows[id := Row(objectKey, p, reported)];
      }
      r := if insertOk then Confirmed(Row(objectKey, p, reported)) else ServerError;
    }

    method DeleteMedia(
      id: string, dbOk: bool, s3Effect: bool, s3Ok: bool, rowEffect: bool, rowOk: bool,
      ghost s: State, ghost task: nat
    ) returns (r: Response)
      requires Represents(s) && task !in s.tasks
      modifies this`rows, this`objects
      ensures !dbOk ==> r == ServerError && Represents(s)
      ensures dbOk ==>
        var s' := Delete(s, task, id, s3Effect, s3Ok, rowEffect || rowOk);
        && Represents(s')
        && (r == NoContent ==> id in s.rows && id in s'.retired && s.rows[id].objectKey !in s'.objects)
      ensures r == NotFound <==> dbOk && id !in s.rows
      ensures r == NoContent <==> dbOk && id in s.rows && s3Ok && rowOk
      ensures r == NotFound || r == NoContent || r == ServerError
    {
      if !dbOk {
        return ServerError;
      }
      DeleteEffect(s, task, id, s3Effect, s3Ok, rowEffect || rowOk);
      hide Delete;
      if id !in rows {
        return NotFound;
      }
      var item := rows[id];
      if s3Effect || s3Ok {
        objects := objects - {item.objectKey};
      }
      if !s3Ok {
        return ServerError;
      }
      if rowEffect || rowOk {
        rows := rows - {id};
      }
      r := if rowOk then NoContent else ServerError;
    }

    method MediaPermalink(id: string, dbOk: bool, ghost s: State) returns (r: Response)
      requires Represents(s)
      ensures r == if !dbOk then ServerError
        else match Resolve(s, id) case Some(key) => Redirect(key) case None => NotFound
    {
      if !dbOk {
        return ServerError;
      }
      if id in rows {
        r := Redirect(rows[id].objectKey);
      } else {
        r := NotFound;
      }
    }
  }
}
