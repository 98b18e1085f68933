/**
 * The project store (src/lib/db.ts): create, update and fetch project
 * records in the `projects` collection. The collection is a map from
 * document id to record; server timestamps are the `now` argument of each
 * write, and new ids are fresh.
 */
module ProjectStore {
  import opened Wrappers
  import opened JsValue

  /** A document id in the `projects` collection. */
  type ProjectId = string

  /** The statuses a stored project can have ("draft", "paid"). */
  datatype Status = Draft | Paid

  /**
   * A stored project (`ProjectData` plus `updatedAt`). `name` is a value,
   * not a string, because `answers` is untyped and `||` returns whatever
   * truthy `projectName` it finds.
   */
  datatype ProjectData = ProjectData(
    userId: string,
    name: Value,
    answers: Value,
    status: Status,
    createdAt: int,
    updatedAt: int)

  /** What a write reports: `{ success: true }` or `{ success: false, error }`. */
  datatype Outcome = Ok | Failed(error: string)

  /** The name given to a project whose answers carry no usable name. */
  const DefaultName := "Projeto Sem Nome"

  /** The error `getProject` reports for an id with no record. */
  const NotFoundMessage := "Projeto não encontrado"

  /** The error the database reports when `updateDoc` finds no record (the library adds the path). */
  const NoDocumentToUpdate := "No document to update"

  /**
   * The record `createProject` writes for `answers` at time `now`: the
   * owner and the answers as given, status "draft", and as name the answers'
   * `projectName` when it is truthy, else "Projeto Sem Nome". Reading
   * `projectName` of `null` or `undefined` answers throws, which is reported.
   */
  function NewProjectData(userId: string, answers: Value, now: int): (r: Result<ProjectData, string>)
    ensures r.Failure? <==> answers == Null || answers == Undefined
    ensures r.Success? ==>
      && r.value.userId == userId && r.value.answers == answers && r.value.status == Draft
      && r.value.createdAt == now && r.value.updatedAt == now
    ensures answers.Object? && Field(answers.fields, "projectName").Str?
              && Field(answers.fields, "projectName") != Str("") ==>
      r.Success? && r.value.name == Field(answers.fields, "projectName")
    ensures answers.Object? && (Field(answers.fields, "projectName") == Undefined
              || Field(answers.fields, "projectName") == Str("")) ==>
      r.Success? && r.value.name == Str(DefaultName)
    ensures r.Success? ==> Truthy(r.value.name)
  {
    match Member(answers, "projectName")
    case Failure(message) => Failure(message)
    case Success(projectName) =>
      Success(ProjectData(userId, if Truthy(projectName) then projectName else Str(DefaultName), answers, Draft, now, now))
  }

  /** The id of the `n`-th document created (counting from 0): never empty, and ids of different lengths are different. */
  function IdFor(n: nat): (id: ProjectId)
    ensures |id| == n + 1
  {
    seq(n + 1, _ => 'p')
  }

  /** The `projects` collection. */
  class ProjectStore {
    var projects: map<ProjectId, ProjectData>
    var created: nat

    /** Every stored id is shorter than the next id to be issued, so that one is fresh. */
    ghost predicate Valid()
      reads this
    {
      forall id | id in projects :: |id| <= created
    }

    /** An empty collection. */
    constructor ()
      ensures Valid() && projects == map[]
    {
      projects := map[];
      created := 0;
    }

    /**
     * `createProject(userId, answers)`: adds the new record under a fresh
     * id and returns that id; when the record cannot be built nothing is
     * stored and the error is returned.
     */
    method CreateProject(userId: string, answers: Value, now: int) returns (result: Result<ProjectId, string>)
      requires Valid()
      modifies this
      ensures Valid()
      ensures result.Success? <==> NewProjectData(userId, answers, now).Success?
      ensures result.Success? ==>
        && result.value !in old(projects)
        && projects == old(projects)[result.value := NewProjectData(userId, answers, now).value]
      ensures result.Failure? ==>
        result.error == NewProjectData(userId, answers, now).error && projects == old(projects)
    {
      var record := NewProjectData(userId, answers, now);
      if record.Failure? {
        return Failure(record.error);
      }
      var id := IdFor(created);
      projects := projects[id := record.value];
      created := created + 1;
      return Success(id);
    }

    /**
     * `updateProject(projectId, newAnswers)`: replaces the answers and the
     * update time of an existing record and nothing else, so its name,
     * owner, status and creation time stay as they were even when the new
     * answers carry another `projectName`. A missing record is an error and
     * nothing changes.
     */
    method UpdateProject(projectId: ProjectId, newAnswers: Value, now: int) returns (result: Outcome)
      requires Valid()
      modifies this
      ensures Valid()
      ensures projectId in old(projects) ==>
        && result == Ok
        && projects == old(projects)[projectId := old(projects)[projectId].(answers := newAnswers, updatedAt := now)]
      ensures projectId !in old(projects) ==>
        result == Failed(NoDocumentToUpdate) && projects == old(projects)
    {
      if projectId !in projects {
        return Failed(NoDocumentToUpdate);
      }
      projects := projects[projectId := projects[projectId].(answers := newAnswers, updatedAt := now)];
      return Ok;
    }

    /** `getProject(projectId)`: the stored record, or "Projeto não encontrado". */
    method GetProject(projectId: ProjectId) returns (result: Result<ProjectData, string>)
      ensures projectId in projects ==> result == Success(projects[projectId])
      ensures projectId !in projects ==> result == Failure(NotFoundMessage)
    {
      if projectId in projects {
        return Success(projects[projectId]);
      }
      return Failure(NotFoundMessage);
    }
  }

  /**
   * Saving, editing and reloading: whatever object the answers are, the
   * record is found under the id it was created with; it holds the new
   * answers and the time of the edit, and keeps everything else it was
   * created with, its name among them.
   */
  method SaveEditReload(userId: string, answers: Value, newAnswers: Value, now: int, later: int)
      returns (reloaded: Result<ProjectData, string>)
    requires answers.Object?
    ensures NewProjectData(userId, answers, now).Success?
    ensures reloaded == Success(NewProjectData(userId, answers, now).value.(answers := newAnswers, updatedAt := later))
  {
    var store := new ProjectStore();
    var created := store.CreateProject(userId, answers, now);
    var id := created.value;
    var updated := store.UpdateProject(id, newAnswers, later);
    reloaded := store.GetProject(id);
  }
}
