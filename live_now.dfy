/** The live-session panel: which section each participant is listed in, the
    role each row is rendered with, and the labels and controls the `User`
    component offers on a row. */
module LiveNow {
  import opened LiveTypes
  import opened Classification

  /** The follow control's two forms: "Stop following" and "Follow along". */
  datatype FollowKind = StopFollowing | FollowAlong

  /** A follow control and the `liveUserId` it passes to `onFollow`. */
  datatype FollowControl = FollowControl(kind: FollowKind, liveUserId: Option<UserId>)

  /** What the `User` component shows beside a participant: the "Owner" and
      "(you)" labels, and the controls it offers. `makeEditor` and
      `makeSpectator` hold the `liveUserId` the control passes to
      `onAddEditorClicked` or `onRemoveEditorClicked`, `None` when not offered. */
  datatype Controls = Controls(
    ownerLabel: bool,
    youLabel: bool,
    makeEditor: Option<UserId>,
    makeSpectator: Option<UserId>,
    follow: Option<FollowControl>)

  /** The `User` component's decision for one row. */
  function UserControls(user: User, liveUserId: Option<UserId>, liveRole: Role, liveMode: Mode,
                        followingUserId: Option<UserId>): (c: Controls)
    ensures c.ownerLabel <==> liveRole == Owner
    ensures c.youLabel <==> liveUserId == Some(user.id)
    ensures c.makeEditor.Some? <==> liveMode == Classroom && liveRole == Spectator
    ensures c.makeSpectator.Some? <==> liveMode == Classroom && liveRole == Editor
    ensures c.makeEditor.Some? ==> c.makeEditor.value == user.id
    ensures c.makeSpectator.Some? ==> c.makeSpectator.value == user.id
    ensures !(c.makeEditor.Some? && c.makeSpectator.Some?)
    ensures liveRole == Owner || liveMode == Open ==> c.makeEditor.None? && c.makeSpectator.None?
    ensures c.follow.None? <==> liveUserId == Some(user.id)
    ensures c.follow.Some? ==> (c.follow.value.kind == StopFollowing <==> followingUserId == Some(user.id))
    ensures c.follow.Some? && c.follow.value.kind == StopFollowing ==> c.follow.value.liveUserId.None?
    ensures c.follow.Some? && c.follow.value.kind == FollowAlong ==> c.follow.value.liveUserId == Some(user.id)
  {
    var currentUser := liveUserId == Some(user.id);
    Controls(
      liveRole == Owner,
      currentUser,
      if liveMode == Classroom && liveRole == Spectator then Some(user.id) else None,
      if liveMode == Classroom && liveRole == Editor then Some(user.id) else None,
      if currentUser then None
      else if followingUserId == Some(user.id) then Some(FollowControl(StopFollowing, None))
      else Some(FollowControl(FollowAlong, Some(user.id))))
  }

  /** One rendered `User` element: the participant, the `liveRole` it was given, and its controls. */
  datatype Row = Row(user: User, role: Role, controls: Controls)

  /** The Viewers section: its rows, and whether the "invite them" hint shows. */
  datatype Viewers = Viewers(rows: seq<Row>, inviteHint: bool)

  /** The Editors section, and the Viewers section when there is one. */
  datatype Panel = Panel(editorsSection: seq<Row>, viewersSection: Option<Viewers>)

  /** The slice of the live state the panel reads. */
  datatype LiveState = LiveState(
    liveUserId: Option<UserId>,
    followingUserId: Option<UserId>,
    mode: Mode,
    users: seq<User>,
    ownerIds: seq<UserId>,
    editorIds: seq<UserId>)

  /** `us.map(user => <User liveRole={role} .../>)`. */
  function UserRows(s: LiveState, us: seq<User>, role: Role): seq<Row>
  {
    seq(|us|, i requires 0 <= i < |us| =>
      Row(us[i], role, UserControls(us[i], s.liveUserId, role, s.mode, s.followingUserId)))
  }

  /** The role the spectators list is rendered with: editor in open mode, spectator in classroom mode. */
  function SpectatorRole(mode: Mode): Role
  {
    if mode == Open then Editor else Spectator
  }

  /** The Editors and Viewers sections for the three lists. */
  function Place(s: LiveState, c: Groups): Panel
  {
    Panel(
      UserRows(s, c.owners, Owner) + UserRows(s, c.editors, Editor)
        + (if s.mode == Open then UserRows(s, c.spectators, Editor) else []),
      if s.mode == Classroom
      then Some(Viewers(UserRows(s, c.spectators, Spectator), |c.spectators| == 0))
      else None)
  }

  /** The panel's participant sections for a live state. */
  function Render(s: LiveState): Panel
  {
    Place(s, Classify(s.users, s.ownerIds, s.editorIds))
  }

  /** Every row of the panel, section by section. */
  function AllRows(p: Panel): seq<Row>
  {
    p.editorsSection + (if p.viewersSection.Some? then p.viewersSection.value.rows else [])
  }

  function RowUsers(rows: seq<Row>): seq<User>
  {
    seq(|rows|, i requires 0 <= i < |rows| => rows[i].user)
  }

  /** The role a participant holds in the room: ownership first, then in open
      mode every other participant edits, in classroom mode only the listed editors. */
  function EffectiveRole(s: LiveState, u: User): Role
  {
    if u.id in s.ownerIds then Owner
    else if s.mode == Open || u.id in s.editorIds then Editor
    else Spectator
  }

  lemma RowUsersConcat(a: seq<Row>, b: seq<Row>)
    ensures RowUsers(a + b) == RowUsers(a) + RowUsers(b)
  {
  }

  lemma RowUsersOf(s: LiveState, us: seq<User>, role: Role)
    ensures RowUsers(UserRows(s, us, role)) == us
  {
  }

  /** Section by section, the panel lists the owners, the editors and the spectators. */
  lemma AllRowsOfPlace(s: LiveState, c: Groups)
    ensures AllRows(Place(s, c))
      == UserRows(s, c.owners, Owner) + UserRows(s, c.editors, Editor)
         + UserRows(s, c.spectators, SpectatorRole(s.mode))
  {
  }

  /** Every participant of the room is listed exactly once, in one section or the other. */
  lemma RenderListsEveryUserOnce(s: LiveState)
    ensures multiset(RowUsers(AllRows(Render(s)))) == multiset(s.users)
  {
    var c := Classify(s.users, s.ownerIds, s.editorIds);
    var o, e, v := UserRows(s, c.owners, Owner), UserRows(s, c.editors, Editor),
      UserRows(s, c.spectators, SpectatorRole(s.mode));
    AllRowsOfPlace(s, c);
    RowUsersConcat(o + e, v);
    RowUsersConcat(o, e);
    RowUsersOf(s, c.owners, Owner);
    RowUsersOf(s, c.editors, Editor);
    RowUsersOf(s, c.spectators, SpectatorRole(s.mode));
    ClassifyPartition(s.users, s.ownerIds, s.editorIds);
  }

  lemma UserRowsRoles(s: LiveState, us: seq<User>, role: Role)
    requires forall i :: 0 <= i < |us| ==> EffectiveRole(s, us[i]) == role
    ensures forall i :: 0 <= i < |UserRows(s, us, role)| ==>
      UserRows(s, us, role)[i].role == EffectiveRole(s, UserRows(s, us, role)[i].user)
  {
  }

  /** Each row is rendered with the participant's role in the room. */
  lemma RenderRolesEffective(s: LiveState)
    ensures var rows := AllRows(Render(s));
      forall i :: 0 <= i < |rows| ==> rows[i].role == EffectiveRole(s, rows[i].user)
  {
    var c := Classify(s.users, s.ownerIds, s.editorIds);
    forall i | 0 <= i < |c.owners|
      ensures EffectiveRole(s, c.owners[i]) == Owner
    {
      ClassifyMembership(s.users, s.ownerIds, s.editorIds, c.owners[i]);
    }
    forall i | 0 <= i < |c.editors|
      ensures EffectiveRole(s, c.editors[i]) == Editor
    {
      ClassifyMembership(s.users, s.ownerIds, s.editorIds, c.editors[i]);
    }
    forall i | 0 <= i < |c.spectators|
      ensures EffectiveRole(s, c.spectators[i]) == SpectatorRole(s.mode)
    {
      ClassifyMembership(s.users, s.ownerIds, s.editorIds, c.spectators[i]);
    }
    UserRowsRoles(s, c.owners, Owner);
    UserRowsRoles(s, c.editors, Editor);
    UserRowsRoles(s, c.spectators, SpectatorRole(s.mode));
    AllRowsOfPlace(s, c);
    RowsRolesConcat(s, UserRows(s, c.owners, Owner), UserRows(s, c.editors, Editor));
    RowsRolesConcat(s, UserRows(s, c.owners, Owner) + UserRows(s, c.editors, Editor),
      UserRows(s, c.spectators, SpectatorRole(s.mode)));
  }

  lemma RowsRolesConcat(s: LiveState, a: seq<Row>, b: seq<Row>)
    requires forall i :: 0 <= i < |a| ==> a[i].role == EffectiveRole(s, a[i].user)
    requires forall i :: 0 <= i < |b| ==> b[i].role == EffectiveRole(s, b[i].user)
    ensures forall i :: 0 <= i < |a + b| ==> (a + b)[i].role == EffectiveRole(s, (a + b)[i].user)
  {
  }

  /** In open mode there is no Viewers section and no row has role spectator;
      in classroom mode exactly the Viewers rows have role spectator, and the
      invite hint shows exactly when that section is empty. */
  lemma SectionPlacement(s: LiveState, c: Groups)
    ensures var p := Place(s, c);
      s.mode == Open ==>
        && p.viewersSection.None?
        && forall i :: 0 <= i < |p.editorsSection| ==> p.editorsSection[i].role != Spectator
    ensures var p := Place(s, c);
      s.mode == Classroom ==>
        && p.viewersSection.Some?
        && (forall i :: 0 <= i < |p.editorsSection| ==> p.editorsSection[i].role != Spectator)
        && (forall i :: 0 <= i < |p.viewersSection.value.rows| ==> p.viewersSection.value.rows[i].role == Spectator)
        && (p.viewersSection.value.inviteHint <==> p.viewersSection.value.rows == [])
    ensures var p := Place(s, c);
      RowUsers(p.editorsSection)
      == if s.mode == Open then c.owners + c.editors + c.spectators else c.owners + c.editors
    ensures var p := Place(s, c);
      s.mode == Classroom ==> RowUsers(p.viewersSection.value.rows) == c.spectators
  {
    var o, e := UserRows(s, c.owners, Owner), UserRows(s, c.editors, Editor);
    RowUsersConcat(o, e);
    RowUsersOf(s, c.owners, Owner);
    RowUsersOf(s, c.editors, Editor);
    if s.mode == Open {
      var v := UserRows(s, c.spectators, Editor);
      RowUsersConcat(o + e, v);
      RowUsersOf(s, c.spectators, Editor);
    } else {
      RowUsersOf(s, c.spectators, Spectator);
    }
  }

  /** "Make editor" is offered exactly on classroom-mode rows of participants
      who are neither owners nor editors, "Make spectator" exactly on
      classroom-mode rows of editors who are not owners, each carrying that
      participant's id; in open mode neither is offered. */
  lemma RenderPromotionControls(s: LiveState)
    ensures var rows := AllRows(Render(s));
      forall i :: 0 <= i < |rows| ==>
        && rows[i].controls.makeEditor
           == (if s.mode == Classroom && rows[i].user.id !in s.ownerIds && rows[i].user.id !in s.editorIds
               then Some(rows[i].user.id) else None)
        && rows[i].controls.makeSpectator
           == (if s.mode == Classroom && rows[i].user.id in s.editorIds && rows[i].user.id !in s.ownerIds
               then Some(rows[i].user.id) else None)
  {
    RenderRowsByUser(s);
    RenderRolesEffective(s);
  }

  /** The labels and the follow control on every row: "Owner" exactly for
      owners, "(you)" and no follow control exactly for the local user,
      otherwise "Stop following" (sending `null`) on the followed participant
      and "Follow along" (sending its id) on everyone else. */
  lemma RenderFollowControls(s: LiveState)
    ensures var rows := AllRows(Render(s));
      forall i :: 0 <= i < |rows| ==>
        && (rows[i].controls.ownerLabel <==> rows[i].user.id in s.ownerIds)
        && (rows[i].controls.youLabel <==> s.liveUserId == Some(rows[i].user.id))
        && rows[i].controls.follow
           == (if s.liveUserId == Some(rows[i].user.id) then None
               else if s.followingUserId == Some(rows[i].user.id) then Some(FollowControl(StopFollowing, None))
               else Some(FollowControl(FollowAlong, Some(rows[i].user.id))))
  {
    RenderRowsByUser(s);
    RenderRolesEffective(s);
  }

  /** Every row's controls are the `User` component's decision for its participant and role. */
  lemma RenderRowsByUser(s: LiveState)
    ensures var rows := AllRows(Render(s));
      forall i :: 0 <= i < |rows| ==>
        rows[i].controls == UserControls(rows[i].user, s.liveUserId, rows[i].role, s.mode, s.followingUserId)
  {
    var c := Classify(s.users, s.ownerIds, s.editorIds);
    AllRowsOfPlace(s, c);
  }
}
