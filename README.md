# Playlist workspace model

A Dafny model of the playlist workspace of a playlist-management web client
(the `Home` component). The workspace holds the list of playlists last
fetched from the playlist API, two search boxes, a create form and an edit slot
for playlists and for songs, and the flags that show the playlist and song
modals. The model covers four parts:

- the search (`Search`): a case-insensitive substring match of a name term
  and a genre term, built on ASCII lower-casing and substring containment
  (`Text`);
- the like patch (`Likes`): the like count the server returns replaces the
  `likes` field of the playlists with the liked id, and nothing else;
- the fetch-all replacement: a successful list fetch replaces the held list
  wholesale, and a failed one changes nothing;
- the modal and form state machine (`Home.Workspace`): every button, text box
  and request handler is one method of a class whose fields are the
  component's state variables.

Every request is one atomic step. Its outcome is a parameter of the handler:
`delivered: bool` for requests whose answer is not read, and a `Reply` for the
list fetch and the like. Each handler returns the requests it issued, in
order. So "a failed delete triggers no refetch" is a statement about that
returned sequence. Every state-changing method states its whole new state as
`Snapshot() == old(Snapshot()).(…)`, so whatever it does not name is unchanged.
Mounting the component is the constructor followed by `FetchPlaylists`.

Three behaviours of the code worth noting:

- Opening the create-playlist modal does not reset the create form. The button
  only sets `showPlaylistModal`, so the form keeps whatever was typed before.
- A mutating handler closes its modal and then starts the refetch, without
  waiting for it. The model runs both inside the same atomic step, in that
  order.
- The create and edit modes are independent flags, so they can be set
  together. When both are set, the modal is shown in edit mode, and submitting
  it edits.

## Model

| member | source | states |
|---|---|---|
| `Text.LowerStr` | PlaylistAPIVS/src/components/Home.jsx:157-158 | lower-casing keeps the length, leaves no ASCII capital, changes only capitals and maps each to its small letter |
| `Text.Lower` | PlaylistAPIVS/src/components/Home.jsx:157-158 | lower-casing one character leaves no ASCII capital, maps a capital to its small letter and leaves every other character as it is |
| `Text.Contains` | PlaylistAPIVS/src/components/Home.jsx:157-158 | `includes`: the term is a prefix of the text or of one of its suffixes; a term longer than the text is never contained |
| `Text.LowerStrIdempotent` | PlaylistAPIVS/src/components/Home.jsx:157-158 | lower-casing a lower-cased term changes nothing |
| `Text.ContainsIffOccurs` | PlaylistAPIVS/src/components/Home.jsx:157-158 | `includes` holds exactly when the needle occurs at some index of the haystack |
| `Text.ContainsEmpty` | PlaylistAPIVS/src/components/Home.jsx:157-158 | every string includes the empty term |
| `Search.Matches` | PlaylistAPIVS/src/components/Home.jsx:157-158 | the `filter` callback: a playlist matches exactly when the lower-cased name term occurs at some index of its lower-cased name and the lower-cased genre term occurs at some index of its lower-cased genre |
| `Search.FilterPlaylists` | PlaylistAPIVS/src/components/Home.jsx:156-159 | the result is never longer than the list; each playlist in it is held and matches both terms |
| `Search.FilterIsSubsequence` | PlaylistAPIVS/src/components/Home.jsx:156-159 | the search result is an order-preserving subsequence of the held list |
| `Search.FilterOccurrences` | PlaylistAPIVS/src/components/Home.jsx:156-159 | a matching playlist appears in the result as often as in the list; a non-matching one does not appear |
| `Search.FilterKeepsExactly` | PlaylistAPIVS/src/components/Home.jsx:156-159 | a playlist is shown if and only if it is held and its lower-cased name and genre contain the lower-cased terms |
| `Search.FilterEmptyTerms` | PlaylistAPIVS/src/components/Home.jsx:156-159 | with both search boxes empty the whole list is shown |
| `Search.FilterIdempotent` | PlaylistAPIVS/src/components/Home.jsx:156-159 | searching the search result again with the same terms gives the same result |
| `Likes.PatchLikes` | PlaylistAPIVS/src/components/Home.jsx:36-38 | same length, order and ids; liked entries get the new count with every other field unchanged; all other entries are unchanged |
| `Likes.AbsentIdUnchanged` | PlaylistAPIVS/src/components/Home.jsx:36-38 | liking an id the list does not hold leaves the list as it was |
| `Likes.LaterLikeWins` | PlaylistAPIVS/src/components/Home.jsx:36-38 | of two likes of one playlist, the count of the later answer is kept |
| `Likes.LikeCommutesWithFilter` | PlaylistAPIVS/src/components/Home.jsx:36-38 | a like never changes which playlists the search shows: searching the patched list equals patching the search result |
| `Home.Workspace.constructor` | PlaylistAPIVS/src/components/Home.jsx:9-18 | the initial state: empty list, empty forms and search boxes, both edit slots empty, both modals hidden |
| `Home.Workspace.FetchPlaylists` | PlaylistAPIVS/src/components/Home.jsx:20-31 | sends one list request; a successful reply replaces the list wholesale; a failure changes nothing |
| `Home.Workspace.HandleLike` | PlaylistAPIVS/src/components/Home.jsx:33-42 | sends one like request; on success only the liked playlists' counts change and the search shows the same playlists patched; on failure nothing changes |
| `Home.Workspace.HandleCreatePlaylist` | PlaylistAPIVS/src/components/Home.jsx:44-64 | posts the create form; once delivered it empties name and genre, hides the modal and refetches; a failed post changes nothing and sends no refetch |
| `Home.Workspace.HandleEditPlaylist` | PlaylistAPIVS/src/components/Home.jsx:66-85 | puts the edited record under its id; once delivered it clears the edit slot, hides the modal and refetches; with an empty edit slot it sends nothing and changes nothing |
| `Home.Workspace.HandleDeletePlaylist` | PlaylistAPIVS/src/components/Home.jsx:87-97 | deletes by id and refetches only once the delete is delivered; it changes nothing else |
| `Home.Workspace.HandleAddSong` | PlaylistAPIVS/src/components/Home.jsx:99-120 | posts the add-song form; once delivered it empties all four fields, hides the song modal and refetches; a failed post changes nothing |
| `Home.Workspace.HandleEditSong` | PlaylistAPIVS/src/components/Home.jsx:122-142 | puts the edited song's title, artist and duration; once delivered it clears the edit slot, hides the modal and refetches; with an empty edit slot it sends nothing |
| `Home.Workspace.HandleDeleteSong` | PlaylistAPIVS/src/components/Home.jsx:144-154 | deletes by id and refetches only once the delete is delivered; it changes nothing else |
| `Home.Workspace.OpenPlaylistModal` | PlaylistAPIVS/src/components/Home.jsx:166 | sets the create flag; the playlist modal is then visible and, when not editing, shows the create form as it was left |
| `Home.Workspace.StartEditPlaylist` | PlaylistAPIVS/src/components/Home.jsx:200 | puts the card's playlist in the edit slot; the modal is then visible in edit mode and shows its name and genre |
| `Home.Workspace.ClosePlaylistModal` | PlaylistAPIVS/src/components/Home.jsx:268 | clears the create flag and the edit slot (the same handler as the close at line 243); the modal is then hidden |
| `Home.Workspace.TypePlaylistName` | PlaylistAPIVS/src/components/Home.jsx:251-255 | the typed name goes to the record in the edit slot if there is one, else to the create form; the shown name becomes the typed text |
| `Home.Workspace.TypePlaylistGenre` | PlaylistAPIVS/src/components/Home.jsx:259-263 | the same for the genre box |
| `Home.Workspace.SubmitPlaylistModal` | PlaylistAPIVS/src/components/Home.jsx:271 | submits an update when a record is in the edit slot and a create otherwise, with the values the modal shows; a delivered submit refetches and leaves the modal hidden, and it states the whole new state: an edit clears the slot and keeps the create form, a create empties the form, and nothing else changes; a failed one changes nothing |
| `Home.Workspace.OpenSongModal` | PlaylistAPIVS/src/components/Home.jsx:197 | sets the song flag; the song modal is then visible, with the add form as it was left |
| `Home.Workspace.StartEditSong` | PlaylistAPIVS/src/components/Home.jsx:221 | puts the song in the edit slot; the song modal is then visible in edit mode (selector disabled) and shows the song's fields |
| `Home.Workspace.CloseSongModal` | PlaylistAPIVS/src/components/Home.jsx:327 | clears the song flag and the edit slot (the same handler as the close at line 278); the song modal is then hidden |
| `Home.Workspace.ChooseSongPlaylist` | PlaylistAPIVS/src/components/Home.jsx:286-290 | the chosen playlist goes to the edited song if there is one, else to the add form; nothing else changes |
| `Home.Workspace.TypeSongTitle` | PlaylistAPIVS/src/components/Home.jsx:300-306 | the typed title goes to the edited song if there is one, else to the add form |
| `Home.Workspace.TypeSongArtist` | PlaylistAPIVS/src/components/Home.jsx:308-314 | the same for the artist box |
| `Home.Workspace.TypeSongDuration` | PlaylistAPIVS/src/components/Home.jsx:316-322 | the same for the duration box |
| `Home.Workspace.SubmitSongModal` | PlaylistAPIVS/src/components/Home.jsx:330 | submits an update when a song is in the edit slot and an add otherwise; a delivered submit refetches and leaves the song modal hidden, and it states the whole new state: an edit clears the slot and keeps the add form, an add empties all four fields, and nothing else changes; a failed one changes nothing |
| `Home.Workspace.TypeSearchTerm` | PlaylistAPIVS/src/components/Home.jsx:173-178 | only the name term changes; the shown list becomes the held list searched with the new term |
| `Home.Workspace.TypeSearchGenre` | PlaylistAPIVS/src/components/Home.jsx:181-186 | only the genre term changes; the shown list becomes the held list searched with the new genre |

The view predicates of `Home.Workspace` give the rendering rules the methods
above are stated with:

- `PlaylistModalVisible` is the create flag or a filled edit slot (line 243).
- `PlaylistModalEditing` picks the title, the submit label and the submit action (lines 245, 271-272).
- `PlaylistFields` gives the values the boxes show (lines 253, 261).
- `SongModalVisible`, `SongModalEditing` and `SongFields` are the same for songs (lines 278, 280, 288-320). `SongModalEditing` also disables the playlist selector (line 290).
- `Shown` is the list on screen (lines 156-159, 190-191).

## Left out

- Lower-casing covers ASCII capitals only. JavaScript's `toLowerCase` also maps other Unicode capitals, and all filter properties are stated relative to the ASCII version.
- HTTP encoding is left out: URLs, form-data bodies, credentials and axios. Each request is only the `Request` value it carries, plus a success or failure outcome.
- Error logging to the console is left out. It has no effect on state.
- Asynchronous interleaving is left out. Each handler is one atomic step. Two effects are therefore not captured: `handleLike` mapping over a possibly stale list, and overlapping refetches finishing out of order.
- Rendering and styling are left out, as is a like answer without a `likes` field.
- Records whose name or genre is missing are left out. On these, `toLowerCase` would throw during rendering.
- The session holder, the login, registration and logout views, the navigation bar, the router, the streaming-auth bridge and the streaming player are not part of this model. They hold no workspace state.
- The duplicate fetch and like of the separate playlists page is not part of this model. It only refetches, which `FetchPlaylists` already covers.
