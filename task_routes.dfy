/** The server's academic-task routes (server/routes/AcadTask.js): listing a
    user's tasks, and the create, update, delete and toggle handlers, over the
    AcadTasks collection held as a map from document id to document. */
module TaskRoutes {
  import opened Common
  import opened ObjectIds

  /** A stored deadline: a date, or the empty string an update can write
      when it sends a falsy deadline (it is converted only when truthy). */
  datatype DeadlineValue = At(ms: int) | EmptyText

  /** A document of the collection. `description` and `completed` may be
      missing from documents the routes did not create. */
  datatype TaskDoc = TaskDoc(
    userId: string,
    title: string,
    description: Option<string>,
    priority: string,
    deadline: DeadlineValue,
    subject: string,
    completed: Option<bool>,
    createdAt: int,
    updatedAt: int)

  /** A request body: each field present or absent. */
  datatype TaskBody = TaskBody(
    userId: Option<string>,
    title: Option<string>,
    description: Option<string>,
    priority: Option<string>,
    deadline: Option<string>,
    subject: Option<string>,
    completed: Option<bool>)

  /** What a listing returns for one document. */
  datatype TaskView = TaskView(
    id: string,
    userId: string,
    title: string,
    description: string,
    priority: string,
    deadline: DeadlineValue,
    subject: string,
    completed: bool,
    createdAt: int,
    updatedAt: int)

  datatype TaskReply =
    | Failure(status: int, message: string)
    | Created(id: string, task: TaskDoc)
    | UpdatedReply(id: string)
    | DeletedReply
    | ToggledReply(completed: bool)

  const TitleRequired: string := "User ID and title are required"
  const InvalidTaskId: string := "Invalid task ID format"
  const TaskNotFound: string := "Task not found"

  function StatusOf(r: TaskReply): int {
    match r
    case Failure(status, _) => status
    case Created(_, _) => 201
    case _ => 200
  }

  /** JavaScript truthiness of an optional string. */
  predicate Truthy(s: Option<string>) {
    s.Some? && s.value != ""
  }

  /** `s || fallback`. */
  function OrElse(s: Option<string>, fallback: string): string {
    if Truthy(s) then s.value else fallback
  }

  /** The document a successful create inserts; `toDate` is `new Date(text)`. */
  function NewDoc(body: TaskBody, now: int, toDate: string -> int): (d: TaskDoc)
    requires Truthy(body.userId) && Truthy(body.title)
    ensures d.userId == body.userId.value && d.title == body.title.value
    ensures d.description == Some(OrElse(body.description, ""))
    ensures d.priority == OrElse(body.priority, "medium")
    ensures d.deadline == At(if Truthy(body.deadline) then toDate(body.deadline.value) else now)
    ensures d.subject == OrElse(body.subject, "")
    ensures d.completed.Some? && (d.completed.value <==> body.completed == Some(true))
    ensures d.createdAt == now && d.updatedAt == now
  {
    TaskDoc(
      body.userId.value,
      body.title.value,
      Some(OrElse(body.description, "")),
      OrElse(body.priority, "medium"),
      if Truthy(body.deadline) then At(toDate(body.deadline.value)) else At(now),
      OrElse(body.subject, ""),
      Some(body.completed.GetOr(false)),
      now,
      now)
  }

  /** `$set` of the body's fields and `updatedAt`; a truthy deadline is
      converted to a date, a falsy one is written as it came. */
  function MergeDoc(d: TaskDoc, body: TaskBody, now: int, toDate: string -> int): (r: TaskDoc)
    ensures r.userId == body.userId.GetOr(d.userId) && r.title == body.title.GetOr(d.title)
    ensures r.description == (if body.description.Some? then body.description else d.description)
    ensures r.priority == body.priority.GetOr(d.priority)
    ensures body.deadline.None? ==> r.deadline == d.deadline
    ensures Truthy(body.deadline) ==> r.deadline == At(toDate(body.deadline.value))
    ensures body.deadline == Some("") ==> r.deadline == EmptyText
    ensures r.subject == body.subject.GetOr(d.subject)
    ensures r.completed == (if body.completed.Some? then body.completed else d.completed)
    ensures r.createdAt == d.createdAt && r.updatedAt == now
  {
    TaskDoc(
      body.userId.GetOr(d.userId),
      body.title.GetOr(d.title),
      if body.description.Some? then body.description else d.description,
      body.priority.GetOr(d.priority),
      match body.deadline
      case None => d.deadline
      case Some(text) => if text != "" then At(toDate(text)) else EmptyText,
      body.subject.GetOr(d.subject),
      if body.completed.Some? then body.completed else d.completed,
      d.createdAt,
      now)
  }

  /** The toggle's write: the negation of the stored flag, a missing flag
      counting as false. */
  function ToggleDoc(d: TaskDoc, now: int): (r: TaskDoc)
    ensures r.completed == Some(!d.completed.GetOr(false))
    ensures r == d.(completed := r.completed, updatedAt := now)
  {
    d.(completed := Some(!d.completed.GetOr(false)), updatedAt := now)
  }

  /** The listing's transform: the id as text, a missing description as '',
      a missing completion flag as false. */
  function ToView(id: string, d: TaskDoc): (v: TaskView)
    ensures v.id == id && v.userId == d.userId && v.title == d.title
    ensures v.description == d.description.GetOr("")
    ensures v.completed == d.completed.GetOr(false)
    ensures v.priority == d.priority && v.deadline == d.deadline && v.subject == d.subject
    ensures v.createdAt == d.createdAt && v.updatedAt == d.updatedAt
  {
    TaskView(id, d.userId, d.title, d.description.GetOr(""), d.priority, d.deadline,
      d.subject, d.completed.GetOr(false), d.createdAt, d.updatedAt)
  }

  /** A task created from a body with every field filled in is listed with
      exactly the values sent. */
  lemma CreatedTaskListsAsSent(id: string, body: TaskBody, now: int, toDate: string -> int)
    requires Truthy(body.userId) && Truthy(body.title) && Truthy(body.description)
    requires Truthy(body.priority) && Truthy(body.deadline) && Truthy(body.subject)
    requires body.completed.Some?
    ensures var v := ToView(id, NewDoc(body, now, toDate));
      && v.id == id && v.userId == body.userId.value && v.title == body.title.value
      && v.description == body.description.value && v.priority == body.priority.value
      && v.deadline == At(toDate(body.deadline.value)) && v.subject == body.subject.value
      && v.completed == body.completed.value
  {
  }

  /** A created task with nothing optional filled in is listed with the
      defaults: no description, medium priority, due now, no subject, open. */
  lemma CreatedTaskDefaults(id: string, userId: string, title: string, now: int, toDate: string -> int)
    requires userId != "" && title != ""
    ensures var v := ToView(id, NewDoc(TaskBody(Some(userId), Some(title), None, None, None, None, None), now, toDate));
      && v.description == "" && v.priority == "medium" && v.deadline == At(now)
      && v.subject == "" && !v.completed && v.createdAt == now && v.updatedAt == now
  {
  }

  /** Sending the same update twice at the same moment writes nothing new. */
  lemma MergeIdempotent(d: TaskDoc, body: TaskBody, now: int, toDate: string -> int)
    ensures MergeDoc(MergeDoc(d, body, now, toDate), body, now, toDate) == MergeDoc(d, body, now, toDate)
  {
  }

  /** An update with an empty body only moves `updatedAt`. */
  lemma EmptyUpdateOnlyTouches(d: TaskDoc, now: int, toDate: string -> int)
    ensures MergeDoc(d, TaskBody(None, None, None, None, None, None, None), now, toDate)
      == d.(updatedAt := now)
  {
  }

  /** The listed flag flips on every toggle, so two toggles give it back. */
  lemma ToggleFlipsListedFlag(id: string, d: TaskDoc, t1: int, t2: int)
    ensures ToView(id, ToggleDoc(d, t1)).completed == !ToView(id, d).completed
    ensures ToView(id, ToggleDoc(ToggleDoc(d, t1), t2)).completed == ToView(id, d).completed
    ensures ToggleDoc(ToggleDoc(d, t1), t2) == d.(completed := Some(d.completed.GetOr(false)), updatedAt := t2)
  {
  }

  /** The AcadTasks collection. */
  class TaskCollection {
    var docs: map<string, TaskDoc>

    /** Every key is an id as MongoDB prints it. */
    ghost predicate Valid()
      reads this
    {
      forall k :: k in docs ==> IsCanonical(k)
    }

    constructor ()
      ensures docs == map[] && Valid()
    {
      docs := map[];
    }

    /** `GET /user/:userId`: every document of that user, transformed, each
        once, in the collection's order (which the map does not fix). */
    method ListByUser(uid: string) returns (r: seq<TaskView>)
      ensures forall i :: 0 <= i < |r| ==>
        r[i].id in docs && docs[r[i].id].userId == uid && r[i] == ToView(r[i].id, docs[r[i].id])
      ensures forall k :: k in docs && docs[k].userId == uid ==> exists i :: 0 <= i < |r| && r[i].id == k
      ensures forall i, j :: 0 <= i < j < |r| ==> r[i].id != r[j].id
    {
      r := [];
      var rest := docs.Keys;
      while rest != {}
        invariant rest <= docs.Keys
        invariant forall i :: 0 <= i < |r| ==>
          r[i].id in docs && r[i].id !in rest && docs[r[i].id].userId == uid && r[i] == ToView(r[i].id, docs[r[i].id])
        invariant forall k :: k in docs && k !in rest && docs[k].userId == uid ==>
          exists i :: 0 <= i < |r| && r[i].id == k
        invariant forall i, j :: 0 <= i < j < |r| ==> r[i].id != r[j].id
        decreases |rest|
      {
        var k :| k in rest;
        if docs[k].userId == uid {
          var before := r;
          r := r + [ToView(k, docs[k])];
          assert r[|r| - 1].id == k;
          assert forall i :: 0 <= i < |before| ==> r[i] == before[i];
        }
        rest := rest - {k};
      }
    }

    /** `POST /`: 400 without a truthy user id and title; otherwise inserts
        the new document under the id the database generates and answers
        201 with that id and the document. */
    method Post(body: TaskBody, newId: string, now: int, toDate: string -> int) returns (reply: TaskReply)
      requires Valid() && IsCanonical(newId) && newId !in docs
      modifies this
      ensures Valid()
      ensures !(Truthy(body.userId) && Truthy(body.title)) ==>
        reply == Failure(400, TitleRequired) && docs == old(docs)
      ensures Truthy(body.userId) && Truthy(body.title) ==>
        && docs == old(docs)[newId := NewDoc(body, now, toDate)]
        && reply == Created(newId, NewDoc(body, now, toDate))
        && StatusOf(reply) == 201
    {
      if !Truthy(body.userId) || !Truthy(body.title) {
        return Failure(400, TitleRequired);
      }
      var doc := NewDoc(body, now, toDate);
      docs := docs[newId := doc];
      reply := Created(newId, doc);
    }

    /** `PUT /:id`: 400 for a malformed id, 404 for an absent document,
        otherwise the body's fields are written over the document. */
    method Put(taskId: string, body: TaskBody, now: int, toDate: string -> int) returns (reply: TaskReply)
      requires Valid()
      modifies this
      ensures Valid()
      ensures ParseObjectId(taskId).None? ==> reply == Failure(400, InvalidTaskId) && docs == old(docs)
      ensures ParseObjectId(taskId).Some? && ParseObjectId(taskId).value !in old(docs) ==>
        reply == Failure(404, TaskNotFound) && docs == old(docs)
      ensures ParseObjectId(taskId).Some? && ParseObjectId(taskId).value in old(docs) ==>
        var key := ParseObjectId(taskId).value;
        && docs == old(docs)[key := MergeDoc(old(docs)[key], body, now, toDate)]
        && reply == UpdatedReply(taskId)
    {
      var id := ParseObjectId(taskId);
      if id.None? {
        return Failure(400, InvalidTaskId);
      }
      if id.value !in docs {
        return Failure(404, TaskNotFound);
      }
      docs := docs[id.value := MergeDoc(docs[id.value], body, now, toDate)];
      reply := UpdatedReply(taskId);
    }

    /** `DELETE /:id`: 400, 404, or the document removed and nothing else. */
    method Delete(taskId: string) returns (reply: TaskReply)
      requires Valid()
      modifies this
      ensures Valid()
      ensures ParseObjectId(taskId).None? ==> reply == Failure(400, InvalidTaskId) && docs == old(docs)
      ensures ParseObjectId(taskId).Some? && ParseObjectId(taskId).value !in old(docs) ==>
        reply == Failure(404, TaskNotFound) && docs == old(docs)
      ensures ParseObjectId(taskId).Some? && ParseObjectId(taskId).value in old(docs) ==>
        && docs == old(docs) - {ParseObjectId(taskId).value}
        && reply == DeletedReply
    {
      var id := ParseObjectId(taskId);
      if id.None? {
        return Failure(400, InvalidTaskId);
      }
      if id.value !in docs {
        return Failure(404, TaskNotFound);
      }
      docs := docs - {id.value};
      reply := DeletedReply;
    }

    /** `PATCH /:id/toggle`: 400, 404, or the flag negated and `updatedAt`
        bumped, answering with the new flag. */
    method Toggle(taskId: string, now: int) returns (reply: TaskReply)
      requires Valid()
      modifies this
      ensures Valid()
      ensures ParseObjectId(taskId).None? ==> reply == Failure(400, InvalidTaskId) && docs == old(docs)
      ensures ParseObjectId(taskId).Some? && ParseObjectId(taskId).value !in old(docs) ==>
        reply == Failure(404, TaskNotFound) && docs == old(docs)
      ensures ParseObjectId(taskId).Some? && ParseObjectId(taskId).value in old(docs) ==>
        var key := ParseObjectId(taskId).value;
        && docs == old(docs)[key := ToggleDoc(old(docs)[key], now)]
        && reply == ToggledReply(!old(docs)[key].completed.GetOr(false))
    {
      var id := ParseObjectId(taskId);
      if id.None? {
        return Failure(400, InvalidTaskId);
      }
      if id.value !in docs {
        return Failure(404, TaskNotFound);
      }
      var task := docs[id.value];
      var newCompletion := !task.completed.GetOr(false);
      docs := docs[id.value := ToggleDoc(task, now)];
      reply := ToggledReply(newCompletion);
    }
  }

  /** Two toggles of the same task, with nothing in between, give the task
      back its completion flag. */
  method ToggleTwiceRestores(c: TaskCollection, taskId: string, t1: int, t2: int)
    requires c.Valid()
    modifies c
    ensures c.Valid()
    ensures forall k :: k in c.docs <==> k in old(c.docs)
    ensures forall k :: k in c.docs ==> c.docs[k].completed.GetOr(false) == old(c.docs)[k].completed.GetOr(false)
  {
    var r1 := c.Toggle(taskId, t1);
    var r2 := c.Toggle(taskId, t2);
  }
}
