/**
 * The merge-job handler of server/workers/videoWorker.js: merge the session's videos,
 * write the three URLs into the session and mark it no longer live, check that the
 * session and its host exist, email the host a link to the session, and return the URLs.
 * The document store is an object whose session and user collections are maps; the
 * merge routine's outcome, the mail transport's outcome and the environment are inputs.
 */
module VideoWorker {
  import opened Wrappers

  type SessionId = string
  type UserId = string

  /** The `mergedVideo` sub-document: absent until a merge job writes it. */
  datatype MergedVideo = MergedVideo(host: Option<string>, guest: Option<string>, finalMerged: Option<string>)

  /** A session document: the fields this handler reads or writes, and all the others in `rest`. */
  datatype Session = Session(isLive: bool, mergedVideo: MergedVideo, host: Option<UserId>, rest: map<string, string>)

  /** A user document: its address and, possibly, its display name. */
  datatype User = User(email: string, name: Option<string>)

  /** What the merge routine returns. */
  datatype Urls = Urls(hostUrl: string, guestUrl: string, mergedUrl: string)

  /** A message handed to the mail transport: the parts this handler fills in. */
  datatype Mail = Mail(from: string, to: string, subject: string, greetingName: string, link: string)

  /** The environment variables the handler reads. */
  datatype Env = Env(frontendUrl: string, smtpUser: string)

  const SessionNotFound: string := "Session not found."
  const HostUserNotFound: string := "Host user not found."
  const MailSubject: string := "Your podcast session is ready to download!"
  const LinkPath: string := "/my-studios/"

  /** A session after the `$set`: the three URLs written, no longer live, every other field kept. */
  function Merged(s: Session, u: Urls): (r: Session)
    ensures r.mergedVideo.host == Some(u.hostUrl)
    ensures r.mergedVideo.guest == Some(u.guestUrl)
    ensures r.mergedVideo.finalMerged == Some(u.mergedUrl)
    ensures !r.isLive && r.host == s.host && r.rest == s.rest
  {
    s.(isLive := false, mergedVideo := MergedVideo(Some(u.hostUrl), Some(u.guestUrl), Some(u.mergedUrl)))
  }

  /** The sessions after `findOneAndUpdate` by id: only the matching session changes, and none when there is no match. */
  function ApplyMerge(sessions: map<SessionId, Session>, id: SessionId, u: Urls): (r: map<SessionId, Session>)
    ensures r.Keys == sessions.Keys
    ensures id in sessions ==> r[id] == Merged(sessions[id], u)
    ensures forall k :: k in sessions && k != id ==> r[k] == sessions[k]
  {
    if id in sessions then sessions[id := Merged(sessions[id], u)] else sessions
  }

  /**
   * The sessions after one run of the handler: untouched when the merge routine fails;
   * otherwise only the job's session, if it exists, gets the URLs and leaves the live state.
   */
  function StoreAfter(sessions: map<SessionId, Session>, id: SessionId, merge: Result<Urls, string>): (r: map<SessionId, Session>)
    ensures r.Keys == sessions.Keys
    ensures merge.Failure? ==> r == sessions
    ensures merge.Success? && id in sessions ==> r[id] == Merged(sessions[id], merge.value)
    ensures forall k :: k in sessions && k != id ==> r[k] == sessions[k]
  {
    match merge
    case Failure(_) => sessions
    case Success(u) => ApplyMerge(sessions, id, u)
  }

  /**
   * A redelivered job that gets the same merge result leaves the store as one run did,
   * and in general the last successful run decides the URLs, whatever ran before it.
   */
  lemma RedeliveryConverges(sessions: map<SessionId, Session>, id: SessionId, earlier: Result<Urls, string>, merge: Result<Urls, string>)
    ensures StoreAfter(StoreAfter(sessions, id, merge), id, merge) == StoreAfter(sessions, id, merge)
    ensures merge.Success? ==> StoreAfter(StoreAfter(sessions, id, earlier), id, merge) == StoreAfter(sessions, id, merge)
  {
    if merge.Success? && id in sessions {
      var once := StoreAfter(sessions, id, merge);
      assert StoreAfter(once, id, merge) == once[id := Merged(once[id], merge.value)];
      assert Merged(once[id], merge.value) == once[id];
      var first := StoreAfter(sessions, id, earlier);
      assert Merged(first[id], merge.value) == Merged(sessions[id], merge.value);
    }
  }

  /** `populate('host')`: the host's user document, if the session names one that exists. */
  function HostOf(s: Session, users: map<UserId, User>): (r: Option<User>)
    ensures r.Some? <==> s.host.Some? && s.host.value in users
    ensures r.Some? ==> r.value == users[s.host.value]
  {
    if s.host.Some? && s.host.value in users then Some(users[s.host.value]) else None
  }

  /** The name the email greets: the host's name, or "Host" when it is missing or empty (both falsy). */
  function HostName(u: User): (r: string)
    ensures r != ""
    ensures u.name.Some? && u.name.value != "" ==> r == u.name.value
    ensures u.name.None? || u.name.value == "" ==> r == "Host"
  {
    if u.name.Some? && u.name.value != "" then u.name.value else "Host"
  }

  /** The link to the session's page in the frontend: under the frontend's address, and leading back to exactly that session. */
  function SessionLink(env: Env, id: SessionId): (r: string)
    ensures |env.frontendUrl| <= |r| && r[..|env.frontendUrl|] == env.frontendUrl
    ensures LinkedSession(env, r) == Some(id)
  {
    var base := env.frontendUrl + LinkPath;
    assert (base + id)[..|base|] == base;
    assert (base + id)[|base|..] == id;
    assert (base + id)[..|env.frontendUrl|] == env.frontendUrl;
    base + id
  }

  /** The session a link points at, as the frontend's `/my-studios/:id` route reads it. */
  function LinkedSession(env: Env, link: string): Option<SessionId>
  {
    var base := env.frontendUrl + LinkPath;
    if |base| <= |link| && link[..|base|] == base then Some(link[|base|..]) else None
  }

  /** The notification: to the host's address, greeting the host by name, linking the session. */
  function Notification(env: Env, id: SessionId, host: User): (m: Mail)
    ensures m.to == host.email && m.subject == MailSubject
    ensures m.greetingName == HostName(host)
    ensures LinkedSession(env, m.link) == Some(id)
  {
    Mail("Rivora - " + env.smtpUser, host.email, MailSubject, HostName(host), SessionLink(env, id))
  }

  /** The document store and the mail transport's record of sent messages. */
  class Store {
    var sessions: map<SessionId, Session>
    var users: map<UserId, User>
    var outbox: seq<Mail>

    constructor (sessions: map<SessionId, Session>, users: map<UserId, User>)
      ensures this.sessions == sessions && this.users == users && outbox == []
    {
      this.sessions := sessions;
      this.users := users;
      outbox := [];
    }
  }

  /**
   * The job handler for `sessionId`. `merge` is what the merge routine resolves to or
   * the message it fails with; `mailError` is the message `sendMail` fails with, if it
   * does. The job fails (`Failure`) with the message of the first step that throws.
   */
  method HandleMergeJob(store: Store, env: Env, sessionId: SessionId, merge: Result<Urls, string>,
                        mailError: Option<string>) returns (r: Result<Urls, string>)
    modifies store
    ensures store.users == old(store.users)
    ensures store.sessions == StoreAfter(old(store.sessions), sessionId, merge)
    ensures merge.Failure? ==> r == Failure(merge.error) && store.outbox == old(store.outbox)
    ensures merge.Success? && sessionId !in old(store.sessions) ==>
      r == Failure(SessionNotFound) && store.sessions == old(store.sessions) && store.outbox == old(store.outbox)
    ensures merge.Success? && sessionId in old(store.sessions) ==>
      var host := HostOf(old(store.sessions)[sessionId], store.users);
      && (host.None? ==> r == Failure(HostUserNotFound) && store.outbox == old(store.outbox))
      && (host.Some? && mailError.Some? ==> r == Failure(mailError.value) && store.outbox == old(store.outbox))
      && (host.Some? && mailError.None? ==>
            r == Success(merge.value) && store.outbox == old(store.outbox) + [Notification(env, sessionId, host.value)])
  {
    if merge.Failure? {
      return Failure(merge.error);
    }
    var urls := merge.value;
    var session: Option<Session> := None;
    if sessionId in store.sessions {
      store.sessions := store.sessions[sessionId := Merged(store.sessions[sessionId], urls)];
      session := Some(store.sessions[sessionId]);
    }
    if session.None? {
      return Failure(SessionNotFound);
    }
    var sessionLink := SessionLink(env, sessionId);
    var user := HostOf(session.value, store.users);
    if user.None? {
      return Failure(HostUserNotFound);
    }
    var hostName := HostName(user.value);
    if mailError.Some? {
      return Failure(mailError.value);
    }
    store.outbox := store.outbox + [Mail("Rivora - " + env.smtpUser, user.value.email, MailSubject, hostName, sessionLink)];
    return Success(urls);
  }
}
