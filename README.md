# Live session panel: participant roles and controls

This project models the participant logic of the live-session panel of the
CodeSandbox editor (`LiveNow.tsx`). While a live session runs, the panel reads
the room's `users`, `ownerIds`, `editorIds` and `mode`, plus the local user's
`liveUserId` and the `followingUserId` being followed. From these it:

- splits the users into three lists: `owners` in room order, and `editors` and
  `spectators`, each sorted stably by username with lodash's `sortBy`;
- places the lists in the Editors and Viewers sections, with the role each
  row is rendered with in the current mode;
- decides for each row which labels the `User` component shows ("Owner",
  "(you)"), which controls it offers ("Make editor", "Make spectator",
  "Follow along", "Stop following"), and the `liveUserId` each control would
  pass to its action.

The model is pure: Dafny datatypes and functions, with lemmas about them.

- `live_types.dfy` (`LiveTypes`): ids, users, modes, roles, and `Option` for
  JavaScript's `null`.
- `string_order.dfy` (`StringOrder`): the string order JavaScript's `<`
  gives, which `sortBy` compares usernames with. It is proved to be a total
  order.
- `subsequences.dfy` (`Subsequences`): order-preserving selection.
- `username_sort.dfy` (`UsernameSort`): `sortBy(…, 'username')` as a stable
  insertion sort. `StableSortOf` states what a stable ascending sort is. The
  sort is proved to meet it, and any sequence that meets it is proved equal
  to the sort's result, so the model matches lodash whatever algorithm lodash
  uses.
- `classification.dfy` (`Classification`): the `owners`, `editors` and
  `spectators` lists.
- `live_now.dfy` (`LiveNow`): the `User` component's decision
  (`UserControls`), the placement of the lists in sections (`Place`), and the
  whole panel (`Render`). `EffectiveRole` is an independent statement of the
  role a participant holds in the room. It says ownership comes first. In
  open mode every other participant edits. In classroom mode only the listed
  editors do. The lemmas prove that the panel renders every row with that
  role and offers its controls to match.

Editors and spectators with equal usernames are not ordered by id. `sortBy`
is stable and has no tie-break, so they keep the order they have in `users`.
The model follows the code here.

Ids are modelled as `int` because the panel only compares them for equality.
`ownerIds` and `editorIds` are sequences, as in the room state, and
`.includes` is membership. `users` may contain duplicates. The partition
lemmas count occurrences, so they hold for duplicates too.

## Model

| member | source | states |
|---|---|---|
| `LiveNow.UserControls` | packages/app/src/app/pages/Sandbox/Editor/Workspace/screens/Live/LiveNow.tsx:46-97 | "Owner" shows iff the role is owner, and "(you)" iff the user is the local user. "Make editor" is offered iff the mode is classroom and the role is spectator. "Make spectator" is offered iff the mode is classroom and the role is editor. Both carry the user's id, they are never offered together, and neither is offered to owners or in open mode. No follow control is offered for the local user. Otherwise "Stop following" (payload `null`) is offered iff that user is being followed, and "Follow along" (payload the user's id) in every other case |
| `LiveNow.RenderListsEveryUserOnce` | packages/app/src/app/pages/Sandbox/Editor/Workspace/screens/Live/LiveNow.tsx:218-283 | the participants listed over both sections are exactly the room's users, each as often as it occurs in `users` |
| `LiveNow.RenderRolesEffective` | packages/app/src/app/pages/Sandbox/Editor/Workspace/screens/Live/LiveNow.tsx:218-283 | every row's role is the participant's role in the room (`EffectiveRole`): owner if its id is an owner id; else editor in open mode or if its id is an editor id; else spectator |
| `LiveNow.SectionPlacement` | packages/app/src/app/pages/Sandbox/Editor/Workspace/screens/Live/LiveNow.tsx:244-283 | in open mode there is no Viewers section, no row has role spectator, and the Editors section lists owners, editors and spectators. In classroom mode the Editors section lists owners and editors and has no spectator row. The Viewers section lists exactly the spectators in their sorted order, every Viewers row has role spectator, and the invite hint shows iff Viewers is empty |
| `LiveNow.RenderPromotionControls` | packages/app/src/app/pages/Sandbox/Editor/Workspace/screens/Live/LiveNow.tsx:63-78 | on every row "Make editor" is offered, with the user's id, iff the mode is classroom and the id is in neither id list. "Make spectator" is offered, with the user's id, iff the mode is classroom and the id is an editor id but not an owner id |
| `LiveNow.RenderFollowControls` | packages/app/src/app/pages/Sandbox/Editor/Workspace/screens/Live/LiveNow.tsx:46-97 | on every row "Owner" shows iff the id is an owner id, and "(you)" iff it is the local user. The follow control is none for the local user, "Stop following" with `null` for the followed user, and "Follow along" with the user's id otherwise |
| `Classification.ClassifyPartition` | packages/app/src/app/pages/Sandbox/Editor/Workspace/screens/Live/LiveNow.tsx:134-142 | `owners ++ editors ++ spectators` is a permutation of `users`: no user is lost or duplicated |
| `Classification.ClassifyCounts` | packages/app/src/app/pages/Sandbox/Editor/Workspace/screens/Live/LiveNow.tsx:134-142 | each list holds every occurrence of the users that pass its test, and no other user. The tests are: id an owner id; id an editor id and not an owner id; id in neither list |
| `Classification.ClassifyMembership` | packages/app/src/app/pages/Sandbox/Editor/Workspace/screens/Live/LiveNow.tsx:134-142 | a user is in each list iff it is in `users` and passes that list's test |
| `Classification.ClassifyDisjoint` | packages/app/src/app/pages/Sandbox/Editor/Workspace/screens/Live/LiveNow.tsx:134-142 | the three lists share no user id, pairwise |
| `Classification.OwnershipPrecedence` | packages/app/src/app/pages/Sandbox/Editor/Workspace/screens/Live/LiveNow.tsx:134-136 | a user whose id is both an owner id and an editor id is among the owners and in neither other list |
| `Classification.OwnersInRoomOrder` | packages/app/src/app/pages/Sandbox/Editor/Workspace/screens/Live/LiveNow.tsx:134 | `owners` is a subsequence of `users`: owners are not sorted |
| `Classification.SortedGroupsStable` | packages/app/src/app/pages/Sandbox/Editor/Workspace/screens/Live/LiveNow.tsx:135-142 | `editors` and `spectators` are each ascending by username, and for every username the users carrying it keep their order from `users` |
| `Classification.WhereCount` | packages/app/src/app/pages/Sandbox/Editor/Workspace/screens/Live/LiveNow.tsx:134-142 | `users.filter(test)` holds every occurrence in `users` of each user that passes the test, and nothing else |
| `Classification.WhereSubsequence` | packages/app/src/app/pages/Sandbox/Editor/Workspace/screens/Live/LiveNow.tsx:134-142 | `users.filter(test)` keeps the order of `users` |
| `UsernameSort.Insert` | packages/app/src/app/pages/Sandbox/Editor/Workspace/screens/Live/LiveNow.tsx:135-142 | inserting a user adds exactly that user to the sequence |
| `UsernameSort.SortByUsername` | packages/app/src/app/pages/Sandbox/Editor/Workspace/screens/Live/LiveNow.tsx:135-142 | the sorted list is a permutation of its input |
| `UsernameSort.InsertSorted` | packages/app/src/app/pages/Sandbox/Editor/Workspace/screens/Live/LiveNow.tsx:135-142 | inserting into a sorted list gives a sorted list |
| `UsernameSort.InsertNamed` | packages/app/src/app/pages/Sandbox/Editor/Workspace/screens/Live/LiveNow.tsx:135-142 | the inserted user goes before every user with the same username |
| `UsernameSort.SortSorted` | packages/app/src/app/pages/Sandbox/Editor/Workspace/screens/Live/LiveNow.tsx:135-142 | the result is ascending by username |
| `UsernameSort.SortKeepsNamedOrder` | packages/app/src/app/pages/Sandbox/Editor/Workspace/screens/Live/LiveNow.tsx:135-142 | for every username, the users carrying it appear in the result exactly as in the input |
| `UsernameSort.SortIsStable` | packages/app/src/app/pages/Sandbox/Editor/Workspace/screens/Live/LiveNow.tsx:135-142 | `SortByUsername` is a stable ascending sort by username |
| `UsernameSort.StableSortUnique` | packages/app/src/app/pages/Sandbox/Editor/Workspace/screens/Live/LiveNow.tsx:135-142 | two sequences that are both sorted and agree on the users of every username are equal |
| `UsernameSort.StableSortIsSortByUsername` | packages/app/src/app/pages/Sandbox/Editor/Workspace/screens/Live/LiveNow.tsx:135-142 | any stable ascending sort by username of a list, lodash's included, equals `SortByUsername` of it |
| `UsernameSort.NamedMember` | packages/app/src/app/pages/Sandbox/Editor/Workspace/screens/Live/LiveNow.tsx:135-142 | a user is among the users named `k` iff it is in the list and is named `k` |
| `UsernameSort.NamedSubsequence` | packages/app/src/app/pages/Sandbox/Editor/Workspace/screens/Live/LiveNow.tsx:135-142 | the users named `k` appear in the order of the list |
| `StringOrder.LeReflexive` | packages/app/src/app/pages/Sandbox/Editor/Workspace/screens/Live/LiveNow.tsx:135-142 | the username order is reflexive |
| `StringOrder.LeTotal` | packages/app/src/app/pages/Sandbox/Editor/Workspace/screens/Live/LiveNow.tsx:135-142 | the username order is total |
| `StringOrder.LeAntisymmetric` | packages/app/src/app/pages/Sandbox/Editor/Workspace/screens/Live/LiveNow.tsx:135-142 | the username order is antisymmetric, so equal keys mean equal usernames |
| `StringOrder.LeTransitive` | packages/app/src/app/pages/Sandbox/Editor/Workspace/screens/Live/LiveNow.tsx:135-142 | the username order is transitive |

## Left out

- JSX layout, styling, icons, tooltips' presentation and React `key`s: presentation only.
- The countdown from `startTime` and the invite link built from `roomId`: display only. The `Countdown` component is not part of this model.
- The chat-enabled and notifications switches and the "Stop Session" button: they pass straight through to actions and hold no logic here.
- The effects of `onModeChanged`, `onAddEditorClicked`, `onRemoveEditorClicked` and `onFollow`, and the state store behind `useOvermind`: they are defined outside this file. The model gives only the payload each control would pass. It does not model mode changes, promotion, demotion, follow-state updates, or any rejection of them.
- The mode `<Select>` hands its option value to `onModeChanged` as a free string. The model uses the closed two-value `Mode`, because the select offers only `open` and `classroom`.
- lodash `sortBy`'s handling of `undefined`, `null`, `NaN` and non-string usernames: usernames are modelled as strings.
- StringOrder.Le compares characters by Unicode scalar value, while JavaScript compares UTF-16 code units. The two orders differ only between characters above U+FFFF and characters from U+E000 to U+FFFF.
