/**
  The reducer of the session store: a map from session id to agent session,
  changed by four kinds of action. The reducer builds a new map and leaves its
  input alone, so it is a function over map values here.
*/
module SessionReducer {
  import opened Json

  /** A chat message is kept as the JSON value it is stored as; the reducer
      only ever replaces whole lists of them. */
  type ChatMessage = Json

  /** An agent session: its id, its metadata (title, description, avatar,
      tags, background colour, ...) by key, its chat messages, and the rest of
      its fields, which no action touches. */
  datatype Session = Session(id: string, meta: map<string, Json>, chats: seq<ChatMessage>, rest: seq<(string, Json)>)

  type Sessions = map<string, Session>

  /** The dispatchable actions. `Unknown` stands for any other `type` tag,
      which the reducer's default branch handles. */
  datatype SessionDispatch =
    | AddSession(session: Session)
    | RemoveSession(id: string)
    | UpdateSessionChat(id: string, chats: seq<ChatMessage>)
    | UpdateSessionMeta(id: string, key: string, value: Json)
    | Unknown(kind: string)

  /** Every entry sits under its own session's id. */
  ghost predicate WellKeyed(state: Sessions)
  {
    forall id :: id in state ==> state[id].id == id
  }

  /** Stores the session under its id, replacing whatever was there. */
  function Add(state: Sessions, session: Session): (r: Sessions)
    ensures session.id in r && r[session.id] == session
    ensures r.Keys == state.Keys + {session.id}
    ensures forall id :: id in state && id != session.id ==> r[id] == state[id]
  {
    state[session.id := session]
  }

  /** Drops the entry for id, if any. */
  function Remove(state: Sessions, id: string): (r: Sessions)
    ensures id !in r
    ensures r.Keys == state.Keys - {id}
    ensures forall other :: other in r ==> r[other] == state[other]
  {
    map other | other in state && other != id :: state[other]
  }

  /** Sets one metadata key of the session with that id; a missing session
      leaves the state as it was. */
  function UpdateMeta(state: Sessions, id: string, key: string, value: Json): (r: Sessions)
    ensures r.Keys == state.Keys
    ensures forall other :: other in state && other != id ==> r[other] == state[other]
    ensures id !in state ==> r == state
    ensures id in state ==>
              && key in r[id].meta && r[id].meta[key] == value
              && r[id].meta.Keys == state[id].meta.Keys + {key}
              && (forall k :: k in state[id].meta && k != key ==> r[id].meta[k] == state[id].meta[k])
              && r[id].id == state[id].id
              && r[id].chats == state[id].chats
              && r[id].rest == state[id].rest
  {
    if id !in state then state
    else
      var session := state[id];
      state[id := session.(meta := session.meta[key := value])]
  }

  /** Replaces the chat messages of the session with that id; a missing
      session leaves the state as it was. */
  function UpdateChat(state: Sessions, id: string, chats: seq<ChatMessage>): (r: Sessions)
    ensures r.Keys == state.Keys
    ensures forall other :: other in state && other != id ==> r[other] == state[other]
    ensures id !in state ==> r == state
    ensures id in state ==>
              && r[id].chats == chats
              && r[id].id == state[id].id
              && r[id].meta == state[id].meta
              && r[id].rest == state[id].rest
  {
    if id !in state then state
    else
      var session := state[id];
      state[id := session.(chats := chats)]
  }

  /** The reducer: one action applied to the state. The set of session ids
      grows only by an added session and shrinks only by a removed one, and an
      unknown action gives back an equal state. */
  function SessionsReducer(state: Sessions, payload: SessionDispatch): (r: Sessions)
    ensures payload.AddSession? ==> r.Keys == state.Keys + {payload.session.id}
    ensures payload.RemoveSession? ==> r.Keys == state.Keys - {payload.id}
    ensures payload.UpdateSessionChat? || payload.UpdateSessionMeta? || payload.Unknown? ==> r.Keys == state.Keys
    ensures payload.Unknown? ==> r == state
  {
    match payload
    case AddSession(session) => Add(state, session)
    case RemoveSession(id) => Remove(state, id)
    case UpdateSessionMeta(id, key, value) => UpdateMeta(state, id, key, value)
    case UpdateSessionChat(id, chats) => UpdateChat(state, id, chats)
    case Unknown(_) => state
  }

  /** Adding a session under a fresh id and removing that id again gives back
      the original map. */
  lemma AddThenRemove(state: Sessions, session: Session)
    requires session.id !in state
    ensures SessionsReducer(SessionsReducer(state, AddSession(session)), RemoveSession(session.id)) == state
  {
    var r := SessionsReducer(SessionsReducer(state, AddSession(session)), RemoveSession(session.id));
    assert r.Keys == state.Keys;
    forall id | id in r
      ensures r[id] == state[id]
    {
      assert id != session.id;
    }
  }

  /** Removing an id that is not present changes nothing. */
  lemma RemoveAbsent(state: Sessions, id: string)
    requires id !in state
    ensures SessionsReducer(state, RemoveSession(id)) == state
  {
    var r := SessionsReducer(state, RemoveSession(id));
    assert r.Keys == state.Keys;
  }

  /** Updates addressed to a missing session change nothing. */
  lemma UpdateAbsent(state: Sessions, id: string, key: string, value: Json, chats: seq<ChatMessage>)
    requires id !in state
    ensures SessionsReducer(state, UpdateSessionMeta(id, key, value)) == state
    ensures SessionsReducer(state, UpdateSessionChat(id, chats)) == state
  {
  }

  /** Adding the same session twice is the same as adding it once, and so is
      removing the same id twice. */
  lemma AddRemoveIdempotent(state: Sessions, session: Session, id: string)
    ensures SessionsReducer(SessionsReducer(state, AddSession(session)), AddSession(session)) == SessionsReducer(state, AddSession(session))
    ensures SessionsReducer(SessionsReducer(state, RemoveSession(id)), RemoveSession(id)) == SessionsReducer(state, RemoveSession(id))
  {
    var once := SessionsReducer(state, RemoveSession(id));
    RemoveAbsent(once, id);
  }

  /** A metadata update and a chat update touch different parts of a session,
      so their order does not matter. */
  lemma MetaChatCommute(state: Sessions, id: string, key: string, value: Json, chatId: string, chats: seq<ChatMessage>)
    ensures SessionsReducer(SessionsReducer(state, UpdateSessionMeta(id, key, value)), UpdateSessionChat(chatId, chats))
         == SessionsReducer(SessionsReducer(state, UpdateSessionChat(chatId, chats)), UpdateSessionMeta(id, key, value))
  {
    var a := SessionsReducer(SessionsReducer(state, UpdateSessionMeta(id, key, value)), UpdateSessionChat(chatId, chats));
    var b := SessionsReducer(SessionsReducer(state, UpdateSessionChat(chatId, chats)), UpdateSessionMeta(id, key, value));
    assert a.Keys == b.Keys;
    forall other | other in a
      ensures a[other] == b[other]
    {
      if other == id && other == chatId {
        assert a[other].meta == b[other].meta;
      }
    }
  }

  /** Every action keeps each session stored under its own id. */
  lemma ReducerKeepsKeys(state: Sessions, payload: SessionDispatch)
    requires WellKeyed(state)
    ensures WellKeyed(SessionsReducer(state, payload))
  {
    var r := SessionsReducer(state, payload);
    forall id | id in r
      ensures r[id].id == id
    {
      if payload.AddSession? && id == payload.session.id {
      } else {
        assert id in state;
      }
    }
  }
}
