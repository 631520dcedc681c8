/** The project endpoints: the creation payload, the membership gate every
    per-project route goes through, creating a project and listing a
    user's projects. Random tokens are parameters. */
module ProjectController {
  import opened Wrappers
  import opened Seqs
  import opened ServerRuntime
  import opened GridFiles
  import opened Users
  import opened Projects
  import opened Storage

  /** The body of a creation request. */
  datatype ProjectCreation = ProjectCreation(
    name: string,
    summary: string,
    image: Option<string>,
    connection: Option<ProjectConnection>)

  /** A creation payload that names only the project. */
  function CreationWithName(name: string): (c: ProjectCreation)
    ensures c.name == name && c.summary == "" && c.image.None? && c.connection.None?
  {
    ProjectCreation(name, "", None, None)
  }

  /** `provide_project`: the project with that id, when it exists and the
      user is one of its members; otherwise the same NotFound either way. */
  function ProvideProject(db: Db, user: User, id: string): (r: Result<Project, Exception>)
    ensures r.Ok? <==> ProjectById(db, id).Some? && IsMember(ProjectById(db, id).value, user.id)
    ensures r.Ok? ==> r.value in db.projects && r.value.id == id && IsMember(r.value, user.id)
    ensures r.Err? ==> r.error == NotFound("Project `" + id + "` not found or not accessible.")
  {
    match ProjectById(db, id)
    case Some(p) =>
      if IsMember(p, user.id) then Ok(p)
      else Err(NotFound("Project `" + id + "` not found or not accessible."))
    case None => Err(NotFound("Project `" + id + "` not found or not accessible."))
  }

  /** The creator as sole member: owner permission, owner grant. */
  function CreatorMembers(user: User): (ms: seq<Member>)
    ensures |ms| == 1 && ms[0].userId == user.id && ms[0].permission == Owner && ms[0].grant == OwnerGrant
  {
    [Member(user.id, Owner, OwnerGrant, None)]
  }

  /** Where a stored image is served from. */
  function ImagePath(fileId: string): string
  {
    "/files/" + fileId
  }

  /** The shared body of both creation variants: `imageOwnerId` is the
      owner id handed to the image upload and `projectId` the id the new
      project gets. An image that is not an acceptable data URI fails with
      the framework's client error and writes nothing. */
  function CreateProjectWith(db: Db, user: User, data: ProjectCreation, imageOwnerId: string,
                             projectId: string, fileId: string, prims: Primitives)
    : (r: Result<(Db, Project), Exception>)
    ensures data.image.Some? && data.image.value != "" &&
            CreateFromDataUrl(data.image.value, "projects", imageOwnerId, fileId, prims).Err? ==>
              r == Err(ClientError("Invalid data URI"))
    ensures r.Ok? ==>
              var (d, p) := r.value;
              p.id == projectId && p.name == data.name && p.summary == Some(data.summary) &&
              p.connection == data.connection && p.members == CreatorMembers(user) &&
              ProjectById(d, projectId) == Some(p) && d.users == db.users && d.sessions == db.sessions
    ensures r.Ok? && (data.image.None? || data.image.value == "") ==>
              r.value.1.image.None? && r.value.0.files == db.files && r.value.0.blobs == db.blobs
    ensures r.Ok? && data.image.Some? && data.image.value != "" ==>
              var up := CreateFromDataUrl(data.image.value, "projects", imageOwnerId, fileId, prims);
              up.Ok? && r.value.1.image == Some(ImagePath(fileId)) &&
              up.value.file.id == fileId && up.value.file.ownerId == imageOwnerId &&
              Find(r.value.0.files, FileKey, fileId) == Some(up.value.file)
  {
    var image: Result<Option<Upload>, Exception> :=
      if data.image.Some? && data.image.value != "" then
        match CreateFromDataUrl(data.image.value, "projects", imageOwnerId, fileId, prims)
        case Ok(up) => Ok(Some(up))
        case Err(e) => if IsValueError(e) then Err(ClientError("Invalid data URI")) else Err(e)
      else Ok(None);
    match image
    case Err(e) => Err(e)
    case Ok(up) =>
      var d := if up.Some? then SaveUpload(db, up.value) else db;
      var p := Project(projectId, data.name, Some(data.summary),
                       if up.Some? then Some(ImagePath(up.value.file.id)) else None,
                       data.connection, CreatorMembers(user));
      Ok((SaveProject(d, p), p))
  }

  /** `create_project` as written: the token drawn for the project is given
      to the image upload as its owner id, but the project itself is built
      without it and takes the freshly generated `documentId`. */
  function CreateProjectAsWritten(db: Db, user: User, data: ProjectCreation, projectToken: string,
                                  documentId: string, fileId: string, prims: Primitives)
    : (r: Result<(Db, Project), Exception>)
    ensures r.Ok? ==> r.value.1.id == documentId
    ensures r.Ok? && r.value.1.image.Some? ==>
              Find(r.value.0.files, FileKey, fileId).Some? &&
              Find(r.value.0.files, FileKey, fileId).value.ownerId == projectToken
  {
    CreateProjectWith(db, user, data, projectToken, documentId, fileId, prims)
  }

  /** With two distinct tokens (as two random draws are), the stored image
      names an owner that is not the project. */
  lemma ImageOwnerIsNotTheProject(db: Db, user: User, data: ProjectCreation, projectToken: string,
                                  documentId: string, fileId: string, prims: Primitives)
    requires projectToken != documentId
    ensures var r := CreateProjectAsWritten(db, user, data, projectToken, documentId, fileId, prims);
            r.Ok? && r.value.1.image.Some? ==>
              Find(r.value.0.files, FileKey, fileId).Some? &&
              Find(r.value.0.files, FileKey, fileId).value.ownerId != r.value.1.id
  {
  }

  /** `create_project` as evidently intended: the one drawn token is both
      the project's id and its image's owner id. */
  function CreateProject(db: Db, user: User, data: ProjectCreation, projectId: string,
                         fileId: string, prims: Primitives): (r: Result<(Db, Project), Exception>)
    ensures r.Ok? ==> r.value.1.id == projectId && ProjectById(r.value.0, projectId) == Some(r.value.1)
    ensures r.Ok? && r.value.1.image.Some? ==>
              Find(r.value.0.files, FileKey, fileId).Some? &&
              Find(r.value.0.files, FileKey, fileId).value.ownerId == r.value.1.id &&
              Find(r.value.0.files, FileKey, fileId).value.ownerCollection == "projects"
  {
    CreateProjectWith(db, user, data, projectId, projectId, fileId, prims)
  }

  /** Whatever id the image is filed under, creation fails only for an
      image that is given and is not an acceptable data URI (or does not
      decode), and the failure carries the client error; a failure returns
      no store, so nothing is saved. */
  lemma CreateFailsOnlyOnImage(db: Db, user: User, data: ProjectCreation, imageOwnerId: string,
                               projectId: string, fileId: string, prims: Primitives)
    ensures CreateProjectWith(db, user, data, imageOwnerId, projectId, fileId, prims).Err? <==>
              data.image.Some? && data.image.value != "" &&
              CreateFromDataUrl(data.image.value, "projects", imageOwnerId, fileId, prims).Err?
    ensures CreateProjectWith(db, user, data, imageOwnerId, projectId, fileId, prims).Err? ==>
              CreateProjectWith(db, user, data, imageOwnerId, projectId, fileId, prims).error ==
                ClientError("Invalid data URI")
  {
  }

  /** `get_projects`: the stored projects the user is a member of, in storage order. */
  function GetProjects(db: Db, user: User): (r: seq<Project>)
    ensures forall p :: p in r <==> p in db.projects && IsMember(p, user.id)
  {
    Filter(db.projects, (p: Project) => IsMember(p, user.id))
  }

  /** Whatever id the image is filed under, the creator of a project
      passes the gate for the project's id and sees it in the listing. */
  lemma CreatorCanOpen(db: Db, user: User, data: ProjectCreation, imageOwnerId: string,
                       projectId: string, fileId: string, prims: Primitives)
    requires CreateProjectWith(db, user, data, imageOwnerId, projectId, fileId, prims).Ok?
    ensures var (d, p) := CreateProjectWith(db, user, data, imageOwnerId, projectId, fileId, prims).value;
            ProvideProject(d, user, p.id) == Ok(p) && p in GetProjects(d, user)
  {
    var (d, p) := CreateProjectWith(db, user, data, imageOwnerId, projectId, fileId, prims).value;
    assert p.members[0].userId == user.id;
  }

  /** Both properties for `create_project` as written: the creator can open
      the project under the id it was given, and only an unacceptable image
      makes creation fail. */
  lemma AsWrittenCreatorCanOpen(db: Db, user: User, data: ProjectCreation, projectToken: string,
                                documentId: string, fileId: string, prims: Primitives)
    ensures var r := CreateProjectAsWritten(db, user, data, projectToken, documentId, fileId, prims);
            (r.Err? <==> data.image.Some? && data.image.value != "" &&
                         CreateFromDataUrl(data.image.value, "projects", projectToken, fileId, prims).Err?) &&
            (r.Ok? ==> ProvideProject(r.value.0, user, documentId) == Ok(r.value.1) &&
                       r.value.1 in GetProjects(r.value.0, user))
  {
    CreateFailsOnlyOnImage(db, user, data, projectToken, documentId, fileId, prims);
    if CreateProjectAsWritten(db, user, data, projectToken, documentId, fileId, prims).Ok? {
      CreatorCanOpen(db, user, data, projectToken, documentId, fileId, prims);
    }
  }

  /** The same for the corrected creation, under the one drawn id. */
  lemma CorrectedCreatorCanOpen(db: Db, user: User, data: ProjectCreation, projectId: string,
                                fileId: string, prims: Primitives)
    ensures var r := CreateProject(db, user, data, projectId, fileId, prims);
            (r.Err? <==> data.image.Some? && data.image.value != "" &&
                         CreateFromDataUrl(data.image.value, "projects", projectId, fileId, prims).Err?) &&
            (r.Ok? ==> ProvideProject(r.value.0, user, projectId) == Ok(r.value.1) &&
                       r.value.1 in GetProjects(r.value.0, user))
  {
    CreateFailsOnlyOnImage(db, user, data, projectId, projectId, fileId, prims);
    if CreateProject(db, user, data, projectId, fileId, prims).Ok? {
      CreatorCanOpen(db, user, data, projectId, projectId, fileId, prims);
    }
  }
}
