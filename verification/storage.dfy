/** The server's stores as values: the document collections as sequences
    in storage order, GridFS as a sequence of blobs, and the session store
    as a map from session id. Saving a document replaces the stored one with
    the same id, or adds it when there is none. */
module Storage {
  import opened Wrappers
  import opened Seqs
  import opened GridFiles
  import opened Users
  import opened Sessions
  import opened Projects

  datatype Db = Db(
    users: seq<User>,
    projects: seq<Project>,
    files: seq<GridFile>,
    blobs: seq<Blob>,
    sessions: map<string, Session>)

  function ProjectKey(p: Project): string
  {
    p.id
  }

  function FileKey(f: GridFile): string
  {
    f.id
  }

  /** `Project.from_id`. */
  function ProjectById(db: Db, id: string): (r: Option<Project>)
    ensures r.Some? ==> r.value in db.projects && r.value.id == id
    ensures r.None? <==> forall i :: 0 <= i < |db.projects| ==> db.projects[i].id != id
  {
    Find(db.projects, ProjectKey, id)
  }

  /** Saving a user: it is found by its id afterwards; other collections are untouched. */
  function SaveUser(db: Db, u: User): (d: Db)
    ensures UserById(d.users, u.id) == Some(u)
    ensures forall v :: v in d.users ==> v == u || (v in db.users && v.id != u.id)
    ensures forall v :: v in db.users && v.id != u.id ==> v in d.users
    ensures d.projects == db.projects && d.files == db.files && d.blobs == db.blobs && d.sessions == db.sessions
  {
    db.(users := Upsert(db.users, UserKey, u))
  }

  /** Saving a project: it is found by its id afterwards; other collections are untouched. */
  function SaveProject(db: Db, p: Project): (d: Db)
    ensures ProjectById(d, p.id) == Some(p)
    ensures forall q :: q in d.projects ==> q == p || (q in db.projects && q.id != p.id)
    ensures forall q :: q in db.projects && q.id != p.id ==> q in d.projects
    ensures d.users == db.users && d.files == db.files && d.blobs == db.blobs && d.sessions == db.sessions
  {
    db.(projects := Upsert(db.projects, ProjectKey, p))
  }

  /** Writing an upload: the blob goes to GridFS, then the file record is saved. */
  function SaveUpload(db: Db, up: Upload): (d: Db)
    ensures Find(d.files, FileKey, up.file.id) == Some(up.file)
    ensures d.blobs == db.blobs + [up.blob]
    ensures d.users == db.users && d.projects == db.projects && d.sessions == db.sessions
  {
    db.(files := Upsert(db.files, FileKey, up.file), blobs := db.blobs + [up.blob])
  }

  /** `Session.to_storage`: the session is stored under its own id. */
  function StoreSession(db: Db, s: Session): (d: Db)
    ensures s.id in d.sessions && d.sessions[s.id] == s
    ensures forall k :: k in db.sessions && k != s.id ==> k in d.sessions && d.sessions[k] == db.sessions[k]
    ensures d.users == db.users && d.projects == db.projects && d.files == db.files && d.blobs == db.blobs
  {
    db.(sessions := db.sessions[s.id := s])
  }
}
