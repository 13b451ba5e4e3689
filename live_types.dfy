/** The values the live-session panel works on: participants, session modes and
    the roles a participant row is rendered with. */
module LiveTypes {

  /** A participant id as the live room reports it; the panel only compares ids for equality. */
  type UserId = int

  /** A value that may be absent; `None` stands for JavaScript's `null`. */
  datatype Option<T> = None | Some(value: T)

  /** A participant of the room: its id and its display name. */
  datatype User = User(id: UserId, username: string)

  /** The two values of the room's `mode`: `'open'` and `'classroom'`. */
  datatype Mode = Open | Classroom

  /** The `liveRole` a participant row is rendered with: `'owner'`, `'editor'` or `'spectator'`. */
  datatype Role = Owner | Editor | Spectator
}
