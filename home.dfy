/** The playlist workspace (the `Home` component): the playlist list it holds,
    the two search boxes, the create forms, the edit slots and the two modals,
    with every handler as one atomic step. Each request's outcome is a
    parameter: `delivered` for requests whose answer is not read, a `Reply`
    for the list fetch and the like. Each handler returns the requests it
    issued, in order. */
module Home {
  import opened Catalog
  import opened Search
  import opened Likes

  datatype Option<T> = None | Some(value: T)

  /** The answer to a request whose body is read: its data, or a caught error. */
  datatype Reply<T> = Success(data: T) | Failure {
    /** The data of a successful reply, `default` after a failure. */
    function DataOr(default: T): T {
      if Success? then data else default
    }
  }

  /** The requests the workspace sends to the playlist API. */
  datatype Request =
    | ListPlaylists
    | LikePlaylist(id: Id)
    | CreatePlaylist(name: string, genre: string)
    | UpdatePlaylist(id: Id, name: string, genre: string)
    | DeletePlaylist(id: Id)
    | AddSong(playlistId: string, title: string, artist: string, duration: string)
    | UpdateSong(id: Id, title: string, artist: string, duration: string)
    | DeleteSong(id: Id)

  /** The create-song form (`newSong`). */
  datatype SongDraft = SongDraft(playlistId: string, title: string, artist: string, duration: string)

  const EmptySongDraft := SongDraft("", "", "", "")

  /** The value of every piece of workspace state at one moment. */
  datatype State = State(
    playlists: seq<Playlist>,
    showPlaylistModal: bool,
    showSongModal: bool,
    newPlaylistName: string,
    newPlaylistGenre: string,
    newSong: SongDraft,
    editPlaylist: Option<Playlist>,
    editSong: Option<Song>,
    searchTerm: string,
    searchGenre: string)

  /** The state of a freshly mounted workspace. */
  const Initial := State([], false, false, "", "", EmptySongDraft, None, None, "", "")

  class Workspace {
    var playlists: seq<Playlist>
    var showPlaylistModal: bool
    var showSongModal: bool
    var newPlaylistName: string
    var newPlaylistGenre: string
    var newSong: SongDraft
    var editPlaylist: Option<Playlist>
    var editSong: Option<Song>
    var searchTerm: string
    var searchGenre: string

    function Snapshot(): State
      reads this
    {
      State(playlists, showPlaylistModal, showSongModal, newPlaylistName, newPlaylistGenre,
            newSong, editPlaylist, editSong, searchTerm, searchGenre)
    }

    /** The playlists on screen: the held list narrowed by the two search boxes. */
    function Shown(): seq<Playlist>
      reads this
    {
      FilterPlaylists(playlists, searchTerm, searchGenre)
    }

    /** The playlist modal is on screen. */
    predicate PlaylistModalVisible()
      reads this
    {
      showPlaylistModal || editPlaylist.Some?
    }

    /** The playlist modal edits (title, submit label and action) rather than creates. */
    predicate PlaylistModalEditing()
      reads this
    {
      editPlaylist.Some?
    }

    /** The song modal is on screen. */
    predicate SongModalVisible()
      reads this
    {
      showSongModal || editSong.Some?
    }

    /** The song modal edits rather than adds; the playlist selector is then disabled. */
    predicate SongModalEditing()
      reads this
    {
      editSong.Some?
    }

    /** The name and genre boxes of the playlist modal. */
    function PlaylistFields(): (string, string)
      reads this
    {
      if editPlaylist.Some? then (editPlaylist.value.name, editPlaylist.value.genre)
      else (newPlaylistName, newPlaylistGenre)
    }

    /** The playlist, title, artist and duration boxes of the song modal. */
    function SongFields(): SongDraft
      reads this
    {
      if editSong.Some? then
        SongDraft(editSong.value.playlistId, editSong.value.title, editSong.value.artist, editSong.value.duration)
      else newSong
    }

    constructor ()
      ensures Snapshot() == Initial
      ensures Shown() == [] && !PlaylistModalVisible() && !SongModalVisible()
    {
      playlists := [];
      showPlaylistModal := false;
      showSongModal := false;
      newPlaylistName := "";
      newPlaylistGenre := "";
      newSong := EmptySongDraft;
      editPlaylist := None;
      editSong := None;
      searchTerm := "";
      searchGenre := "";
    }

    /** `fetchPlaylists`, also run once on mount: a successful reply replaces
        the list wholesale, a failed one changes nothing. */
    method FetchPlaylists(reply: Reply<seq<Playlist>>) returns (sent: seq<Request>)
      modifies this
      ensures sent == [ListPlaylists]
      ensures reply.Success? ==> playlists == reply.data
      ensures Snapshot() == old(Snapshot()).(playlists := reply.DataOr(old(playlists)))
    {
      sent := [ListPlaylists];
      if reply.Success? {
        playlists := reply.data;
      }
    }

    /** `handleLike`: the count the server answers replaces the likes of the
        playlists with that id; nothing else changes, and the search shows
        the same playlists as before with the new count. */
    method HandleLike(playlistId: Id, reply: Reply<int>) returns (sent: seq<Request>)
      modifies this
      ensures sent == [LikePlaylist(playlistId)]
      ensures Snapshot() == old(Snapshot()).(playlists :=
        if reply.Success? then PatchLikes(old(playlists), playlistId, reply.data) else old(playlists))
      ensures reply.Success? ==> Shown() == PatchLikes(old(Shown()), playlistId, reply.data)
      ensures reply.Failure? ==> Shown() == old(Shown())
    {
      sent := [LikePlaylist(playlistId)];
      if reply.Success? {
        LikeCommutesWithFilter(playlists, playlistId, reply.data, searchTerm, searchGenre);
        playlists := PatchLikes(playlists, playlistId, reply.data);
      }
    }

    /** `handleCreatePlaylist`: posts the create form; once delivered, empties
        the form, closes the modal and refetches. A failed post changes nothing. */
    method HandleCreatePlaylist(delivered: bool, refetch: Reply<seq<Playlist>>) returns (sent: seq<Request>)
      modifies this
      ensures sent == [CreatePlaylist(old(newPlaylistName), old(newPlaylistGenre))]
                      + (if delivered then [ListPlaylists] else [])
      ensures delivered ==> Snapshot() == old(Snapshot()).(
        newPlaylistName := "", newPlaylistGenre := "", showPlaylistModal := false,
        playlists := refetch.DataOr(old(playlists)))
      ensures !delivered ==> Snapshot() == old(Snapshot())
    {
      sent := [CreatePlaylist(newPlaylistName, newPlaylistGenre)];
      if delivered {
        newPlaylistName := "";
        newPlaylistGenre := "";
        showPlaylistModal := false;
        var listed := FetchPlaylists(refetch);
        sent := sent + listed;
      }
    }

    /** `handleEditPlaylist`: puts the edited record; once delivered, clears the
        edit slot, closes the modal and refetches. With no record in the edit
        slot the handler fails before sending anything. */
    method HandleEditPlaylist(delivered: bool, refetch: Reply<seq<Playlist>>) returns (sent: seq<Request>)
      modifies this
      ensures old(editPlaylist).None? ==> sent == [] && Snapshot() == old(Snapshot())
      ensures old(editPlaylist).Some? ==>
        var p := old(editPlaylist).value;
        sent == [UpdatePlaylist(p.id, p.name, p.genre)] + (if delivered then [ListPlaylists] else [])
      ensures old(editPlaylist).Some? && delivered ==> Snapshot() == old(Snapshot()).(
        editPlaylist := None, showPlaylistModal := false,
        playlists := refetch.DataOr(old(playlists)))
      ensures !delivered ==> Snapshot() == old(Snapshot())
    {
      if editPlaylist.None? {
        return [];
      }
      var p := editPlaylist.value;
      sent := [UpdatePlaylist(p.id, p.name, p.genre)];
      if delivered {
        editPlaylist := None;
        showPlaylistModal := false;
        var listed := FetchPlaylists(refetch);
        sent := sent + listed;
      }
    }

    /** `handleDeletePlaylist`: deletes by id and refetches only once the delete
        is delivered. */
    method HandleDeletePlaylist(playlistId: Id, delivered: bool, refetch: Reply<seq<Playlist>>)
      returns (sent: seq<Request>)
      modifies this
      ensures sent == [DeletePlaylist(playlistId)] + (if delivered then [ListPlaylists] else [])
      ensures Snapshot() == old(Snapshot()).(playlists :=
        if delivered then refetch.DataOr(old(playlists)) else old(playlists))
    {
      sent := [DeletePlaylist(playlistId)];
      if delivered {
        var listed := FetchPlaylists(refetch);
        sent := sent + listed;
      }
    }

    /** `handleAddSong`: posts the add-song form; once delivered, empties every
        field of it, closes the song modal and refetches. */
    method HandleAddSong(delivered: bool, refetch: Reply<seq<Playlist>>) returns (sent: seq<Request>)
      modifies this
      ensures var d := old(newSong);
        sent == [AddSong(d.playlistId, d.title, d.artist, d.duration)]
                + (if delivered then [ListPlaylists] else [])
      ensures delivered ==> Snapshot() == old(Snapshot()).(
        newSong := EmptySongDraft, showSongModal := false,
        playlists := refetch.DataOr(old(playlists)))
      ensures !delivered ==> Snapshot() == old(Snapshot())
    {
      sent := [AddSong(newSong.playlistId, newSong.title, newSong.artist, newSong.duration)];
      if delivered {
        newSong := EmptySongDraft;
        showSongModal := false;
        var listed := FetchPlaylists(refetch);
        sent := sent + listed;
      }
    }

    /** `handleEditSong`: puts the edited song's title, artist and duration;
        once delivered, clears the edit slot, closes the song modal and
        refetches. With no song in the edit slot nothing is sent. */
    method HandleEditSong(delivered: bool, refetch: Reply<seq<Playlist>>) returns (sent: seq<Request>)
      modifies this
      ensures old(editSong).None? ==> sent == [] && Snapshot() == old(Snapshot())
      ensures old(editSong).Some? ==>
        var s := old(editSong).value;
        sent == [UpdateSong(s.id, s.title, s.artist, s.duration)] + (if delivered then [ListPlaylists] else [])
      ensures old(editSong).Some? && delivered ==> Snapshot() == old(Snapshot()).(
        editSong := None, showSongModal := false,
        playlists := refetch.DataOr(old(playlists)))
      ensures !delivered ==> Snapshot() == old(Snapshot())
    {
      if editSong.None? {
        return [];
      }
      var s := editSong.value;
      sent := [UpdateSong(s.id, s.title, s.artist, s.duration)];
      if delivered {
        editSong := None;
        showSongModal := false;
        var listed := FetchPlaylists(refetch);
        sent := sent + listed;
      }
    }

    /** `handleDeleteSong`: deletes by id and refetches only once the delete
        is delivered. */
    method HandleDeleteSong(songId: Id, delivered: bool, refetch: Reply<seq<Playlist>>)
      returns (sent: seq<Request>)
      modifies this
      ensures sent == [DeleteSong(songId)] + (if delivered then [ListPlaylists] else [])
      ensures Snapshot() == old(Snapshot()).(playlists :=
        if delivered then refetch.DataOr(old(playlists)) else old(playlists))
    {
      sent := [DeleteSong(songId)];
      if delivered {
        var listed := FetchPlaylists(refetch);
        sent := sent + listed;
      }
    }

    /** The "Create New Playlist" button: shows the playlist modal, with the
        create form as it was left. */
    method OpenPlaylistModal()
      modifies this
      ensures Snapshot() == old(Snapshot()).(showPlaylistModal := true)
      ensures PlaylistModalVisible()
      ensures !old(PlaylistModalEditing()) ==> PlaylistFields() == (newPlaylistName, newPlaylistGenre)
    {
      showPlaylistModal := true;
    }

    /** A card's edit button: puts the card's playlist into the edit slot, so
        the playlist modal shows and edits it. */
    method StartEditPlaylist(p: Playlist)
      modifies this
      ensures Snapshot() == old(Snapshot()).(editPlaylist := Some(p))
      ensures PlaylistModalVisible() && PlaylistModalEditing()
      ensures PlaylistFields() == (p.name, p.genre)
    {
      editPlaylist := Some(p);
    }

    /** The playlist modal's close button or backdrop: hides it and empties the
        edit slot; the create form keeps what was typed. */
    method ClosePlaylistModal()
      modifies this
      ensures Snapshot() == old(Snapshot()).(showPlaylistModal := false, editPlaylist := None)
      ensures !PlaylistModalVisible()
    {
      showPlaylistModal := false;
      editPlaylist := None;
    }

    /** Typing in the playlist name box: edits the record in the edit slot if
        there is one, the create form otherwise. */
    method TypePlaylistName(v: string)
      modifies this
      ensures old(editPlaylist).Some? ==>
        Snapshot() == old(Snapshot()).(editPlaylist := Some(old(editPlaylist).value.(name := v)))
      ensures old(editPlaylist).None? ==> Snapshot() == old(Snapshot()).(newPlaylistName := v)
      ensures PlaylistFields() == (v, old(PlaylistFields()).1)
    {
      if editPlaylist.Some? {
        editPlaylist := Some(editPlaylist.value.(name := v));
      } else {
        newPlaylistName := v;
      }
    }

    /** Typing in the playlist genre box. */
    method TypePlaylistGenre(v: string)
      modifies this
      ensures old(editPlaylist).Some? ==>
        Snapshot() == old(Snapshot()).(editPlaylist := Some(old(editPlaylist).value.(genre := v)))
      ensures old(editPlaylist).None? ==> Snapshot() == old(Snapshot()).(newPlaylistGenre := v)
      ensures PlaylistFields() == (old(PlaylistFields()).0, v)
    {
      if editPlaylist.Some? {
        editPlaylist := Some(editPlaylist.value.(genre := v));
      } else {
        newPlaylistGenre := v;
      }
    }

    /** The playlist modal's submit button: edits when a record is in the edit
        slot and creates otherwise. A delivered submit always leaves the modal
        closed; a failed one changes nothing. */
    method SubmitPlaylistModal(delivered: bool, refetch: Reply<seq<Playlist>>) returns (sent: seq<Request>)
      modifies this
      ensures |sent| == (if delivered then 2 else 1)
      ensures sent[0] == if old(editPlaylist).Some?
        then UpdatePlaylist(old(editPlaylist).value.id, old(PlaylistFields()).0, old(PlaylistFields()).1)
        else CreatePlaylist(old(PlaylistFields()).0, old(PlaylistFields()).1)
      ensures delivered ==> sent[1] == ListPlaylists && !PlaylistModalVisible()
      ensures delivered ==> playlists == refetch.DataOr(old(playlists))
      ensures delivered ==> Snapshot() == if old(editPlaylist).Some?
        then old(Snapshot()).(editPlaylist := None, showPlaylistModal := false,
                              playlists := refetch.DataOr(old(playlists)))
        else old(Snapshot()).(newPlaylistName := "", newPlaylistGenre := "", showPlaylistModal := false,
                              playlists := refetch.DataOr(old(playlists)))
      ensures !delivered ==> Snapshot() == old(Snapshot())
    {
      if editPlaylist.Some? {
        sent := HandleEditPlaylist(delivered, refetch);
      } else {
        sent := HandleCreatePlaylist(delivered, refetch);
      }
    }

    /** A card's add-song button: shows the song modal with the add form as it
        was left (the card's playlist is not preselected). */
    method OpenSongModal()
      modifies this
      ensures Snapshot() == old(Snapshot()).(showSongModal := true)
      ensures SongModalVisible()
    {
      showSongModal := true;
    }

    /** A song's edit button: puts the song into the edit slot, so the song
        modal shows and edits it with the playlist selector disabled. */
    method StartEditSong(s: Song)
      modifies this
      ensures Snapshot() == old(Snapshot()).(editSong := Some(s))
      ensures SongModalVisible() && SongModalEditing()
      ensures SongFields() == SongDraft(s.playlistId, s.title, s.artist, s.duration)
    {
      editSong := Some(s);
    }

    /** The song modal's close button or backdrop. */
    method CloseSongModal()
      modifies this
      ensures Snapshot() == old(Snapshot()).(showSongModal := false, editSong := None)
      ensures !SongModalVisible()
    {
      showSongModal := false;
      editSong := None;
    }

    /** Choosing in the playlist selector (disabled on screen while a song is
        being edited, but the handler has both branches). */
    method ChooseSongPlaylist(v: string)
      modifies this
      ensures old(editSong).Some? ==>
        Snapshot() == old(Snapshot()).(editSong := Some(old(editSong).value.(playlistId := v)))
      ensures old(editSong).None? ==> Snapshot() == old(Snapshot()).(newSong := old(newSong).(playlistId := v))
      ensures SongFields() == old(SongFields()).(playlistId := v)
    {
      if editSong.Some? {
        editSong := Some(editSong.value.(playlistId := v));
      } else {
        newSong := newSong.(playlistId := v);
      }
    }

    /** Typing in the song title box. */
    method TypeSongTitle(v: string)
      modifies this
      ensures old(editSong).Some? ==>
        Snapshot() == old(Snapshot()).(editSong := Some(old(editSong).value.(title := v)))
      ensures old(editSong).None? ==> Snapshot() == old(Snapshot()).(newSong := old(newSong).(title := v))
      ensures SongFields() == old(SongFields()).(title := v)
    {
      if editSong.Some? {
        editSong := Some(editSong.value.(title := v));
      } else {
        newSong := newSong.(title := v);
      }
    }

    /** Typing in the song artist box. */
    method TypeSongArtist(v: string)
      modifies this
      ensures old(editSong).Some? ==>
        Snapshot() == old(Snapshot()).(editSong := Some(old(editSong).value.(artist := v)))
      ensures old(editSong).None? ==> Snapshot() == old(Snapshot()).(newSong := old(newSong).(artist := v))
      ensures SongFields() == old(SongFields()).(artist := v)
    {
      if editSong.Some? {
        editSong := Some(editSong.value.(artist := v));
      } else {
        newSong := newSong.(artist := v);
      }
    }

    /** Typing in the song duration box. */
    method TypeSongDuration(v: string)
      modifies this
      ensures old(editSong).Some? ==>
        Snapshot() == old(Snapshot()).(editSong := Some(old(editSong).value.(duration := v)))
      ensures old(editSong).None? ==> Snapshot() == old(Snapshot()).(newSong := old(newSong).(duration := v))
      ensures SongFields() == old(SongFields()).(duration := v)
    {
      if editSong.Some? {
        editSong := Some(editSong.value.(duration := v));
      } else {
        newSong := newSong.(duration := v);
      }
    }

    /** The song modal's submit button: edits when a song is in the edit slot
        and adds otherwise. A delivered submit always leaves the modal closed;
        a failed one changes nothing. */
    method SubmitSongModal(delivered: bool, refetch: Reply<seq<Playlist>>) returns (sent: seq<Request>)
      modifies this
      ensures |sent| == (if delivered then 2 else 1)
      ensures var f := old(SongFields());
        sent[0] == if old(editSong).Some?
          then UpdateSong(old(editSong).value.id, f.title, f.artist, f.duration)
          else AddSong(f.playlistId, f.title, f.artist, f.duration)
      ensures delivered ==> sent[1] == ListPlaylists && !SongModalVisible()
      ensures delivered ==> playlists == refetch.DataOr(old(playlists))
      ensures delivered ==> Snapshot() == if old(editSong).Some?
        then old(Snapshot()).(editSong := None, showSongModal := false,
                              playlists := refetch.DataOr(old(playlists)))
        else old(Snapshot()).(newSong := EmptySongDraft, showSongModal := false,
                              playlists := refetch.DataOr(old(playlists)))
      ensures !delivered ==> Snapshot() == old(Snapshot())
    {
      if editSong.Some? {
        sent := HandleEditSong(delivered, refetch);
      } else {
        sent := HandleAddSong(delivered, refetch);
      }
    }

    /** Typing in the name search box: the list shown becomes the held list
        narrowed by the new term; nothing is fetched. */
    method TypeSearchTerm(v: string)
      modifies this
      ensures Snapshot() == old(Snapshot()).(searchTerm := v)
      ensures Shown() == FilterPlaylists(old(playlists), v, old(searchGenre))
    {
      searchTerm := v;
    }

    /** Typing in the genre search box. */
    method TypeSearchGenre(v: string)
      modifies this
      ensures Snapshot() == old(Snapshot()).(searchGenre := v)
      ensures Shown() == FilterPlaylists(old(playlists), old(searchTerm), v)
    {
      searchGenre := v;
    }
  }
}
