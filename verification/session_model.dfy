/** Browser sessions kept in the key-value store, and the expanded form
    that carries the signed-in user's redacted record. */
module Sessions {
  import opened Wrappers
  import opened Seqs
  import opened ServerRuntime
  import opened Users

  datatype Session = Session(id: string, creationTime: Timestamp, accessTime: Timestamp, userId: Option<string>)

  datatype ExpandedSession = ExpandedSession(
    id: string,
    creationTime: Timestamp,
    accessTime: Timestamp,
    user: Option<RedactedUser>)

  function UserKey(u: User): string
  {
    u.id
  }

  /** `User.from_id` over the stored users. */
  function UserById(users: seq<User>, id: string): (r: Option<User>)
    ensures r.Some? ==> r.value in users && r.value.id == id
    ensures r.None? <==> forall i :: 0 <= i < |users| ==> users[i].id != id
  {
    Find(users, UserKey, id)
  }

  /** `Session.create` with the clock reading `now` and a generated id:
      created and accessed at the same instant, nobody signed in. */
  function CreateSession(id: string, now: Timestamp): (s: Session)
    ensures s.id == id && s.creationTime == now && s.accessTime == s.creationTime
    ensures s.userId.None?
  {
    Session(id, now, now, None)
  }

  /** `Session.expand`: the session's own fields, and the redacted user when
      the session names a (non-empty) user id that is found. */
  function Expand(s: Session, users: seq<User>): (e: ExpandedSession)
    ensures e.id == s.id && e.creationTime == s.creationTime && e.accessTime == s.accessTime
    ensures e.user.Some? <==>
              s.userId.Some? && s.userId.value != "" && exists u :: u in users && u.id == s.userId.value
    ensures e.user.Some? ==>
              exists u :: u in users && u.id == s.userId.value && e.user.value == Redact(u)
  {
    var user := if s.userId.Some? && s.userId.value != "" then UserById(users, s.userId.value) else None;
    ExpandedSession(s.id, s.creationTime, s.accessTime, if user.Some? then Some(Redact(user.value)) else None)
  }

  /** A freshly created session expands to no user. */
  lemma NewSessionIsAnonymous(id: string, now: Timestamp, users: seq<User>)
    ensures Expand(CreateSession(id, now), users).user.None?
  {
  }
}
