/** The "Create new playlist" dialog of src/components/dialog/CreatePlaylistDialog.tsx:
    its name validation and the state its create handler leaves behind. */
module CreatePlaylist {
  import opened Wrappers
  import opened Strings

  const NameRequired := "Playlist name is required"
  const NameTooShort := "Playlist name must be at least 3 characters long"
  const InternalServerError := "Internal server error"
  const MinNameLength: nat := 3

  /** The characters JavaScript's `String.prototype.trim` removes. */
  predicate IsJsWhitespace(c: char) {
    c == ' ' || c == '\t' || c == '\n' || c == '\U{B}' || c == '\U{C}' || c == '\r' ||
    c == '\U{A0}' || c == '\U{1680}' || ('\U{2000}' <= c <= '\U{200A}') ||
    c == '\U{2028}' || c == '\U{2029}' || c == '\U{202F}' || c == '\U{205F}' ||
    c == '\U{3000}' || c == '\U{FEFF}'
  }

  /** `!name.trim()`: nothing but whitespace. */
  predicate IsBlank(name: string) {
    forall i :: 0 <= i < |name| ==> IsJsWhitespace(name[i])
  }

  /** The checks before any request: a blank name, then one shorter than three
      UTF-16 code units (JavaScript's `length`, counted before trimming). */
  function ValidateName(name: string): (error: Option<string>)
    ensures error == Some(NameRequired) <==> IsBlank(name)
    ensures error == Some(NameTooShort) <==> !IsBlank(name) && Utf16Length(name) < MinNameLength
    ensures error.None? <==> !IsBlank(name) && Utf16Length(name) >= MinNameLength
  {
    if IsBlank(name) then Some(NameRequired)
    else if Utf16Length(name) < MinNameLength then Some(NameTooShort)
    else None
  }

  /** A name of three characters or more passes unless it is all whitespace; padding
      counts toward the length, so " a " passes. */
  lemma PaddedShortNamePasses()
    ensures ValidateName(" a ") == None
    ensures ValidateName("ab") == Some(NameTooShort)
    ensures ValidateName("   ") == Some(NameRequired)
    ensures ValidateName("\U{1F3B5}a") == None
  {
    assert !IsJsWhitespace(" a "[1]);
    assert !IsJsWhitespace("ab"[0]);
    assert !IsJsWhitespace("\U{1F3B5}a"[1]);
    assert Utf16Length("\U{1F3B5}a") == 3 by {
      assert "\U{1F3B5}a"[1..] == "a";
      assert "a"[1..] == "";
    }
  }

  /** The response body as `response.json()` reads it. */
  datatype Body = Json(message: Option<string>) | NotJson

  /** How the `POST /api/playlist` request ends. */
  datatype CreateFetch = NetworkError | Answer(ok: bool, body: Body)

  datatype DialogState = DialogState(playlistName: string, error: string, isOpen: bool)

  /** `data.message || 'Internal server error'`. */
  function ServerMessage(body: Body): (m: string)
    ensures m != ""
  {
    if body.Json? && body.message.Some? && body.message.value != "" then body.message.value
    else InternalServerError
  }

  /** The state `handleCreate` leaves, as written. After a non-ok answer the body has
      already been read once, so the second `response.json()` rejects and the outer
      handler overwrites whatever message was set with 'Internal server error'. */
  function CreateOutcome(s: DialogState, fetch: CreateFetch): (r: DialogState)
    ensures ValidateName(s.playlistName).Some? ==>
      r == s.(error := ValidateName(s.playlistName).value)
    ensures ValidateName(s.playlistName).None? ==>
      (r == DialogState("", "", false) <==> fetch.Answer? && fetch.ok && fetch.body.Json?)
    ensures ValidateName(s.playlistName).None? && r != DialogState("", "", false) ==>
      r == s.(error := InternalServerError)
  {
    match ValidateName(s.playlistName)
    case Some(e) => s.(error := e)
    case None =>
      match fetch
      case NetworkError => s.(error := InternalServerError)
      case Answer(ok, body) =>
        if !ok then s.(error := InternalServerError)
        else if body.NotJson? then s.(error := InternalServerError)
        else DialogState("", "", false)
  }

  /** The state `handleCreate` would leave if a non-ok answer ended the handler after
      showing its message. */
  function CreateOutcomeIntended(s: DialogState, fetch: CreateFetch): (r: DialogState)
    ensures ValidateName(s.playlistName).Some? ==>
      r == s.(error := ValidateName(s.playlistName).value)
    ensures ValidateName(s.playlistName).None? && fetch.Answer? && !fetch.ok ==>
      r == s.(error := ServerMessage(fetch.body))
    ensures ValidateName(s.playlistName).None? ==>
      (r == DialogState("", "", false) <==> fetch.Answer? && fetch.ok && fetch.body.Json?)
  {
    match ValidateName(s.playlistName)
    case Some(e) => s.(error := e)
    case None =>
      match fetch
      case NetworkError => s.(error := InternalServerError)
      case Answer(ok, body) =>
        if !ok then s.(error := ServerMessage(body))
        else if body.NotJson? then s.(error := InternalServerError)
        else DialogState("", "", false)
  }

  /** As written, the server's message never reaches the user: a refused creation with
      message "Name taken" ends with 'Internal server error'. */
  lemma ServerMessageLost()
    ensures var s := DialogState("Road trip", "", true);
      CreateOutcome(s, Answer(false, Json(Some("Name taken")))).error == InternalServerError
  {
    assert !IsJsWhitespace("Road trip"[0]);
  }

  /** Intended: a refused creation with a non-empty message shows exactly that message
      and keeps the dialog open with the name typed. */
  lemma IntendedShowsServerMessage(s: DialogState, message: string)
    requires ValidateName(s.playlistName).None? && message != ""
    ensures var r := CreateOutcomeIntended(s, Answer(false, Json(Some(message))));
      r.error == message && r.isOpen == s.isOpen && r.playlistName == s.playlistName
  {
  }

  /** Both versions agree on every request that is not refused. */
  lemma IntendedAgreesOtherwise(s: DialogState, fetch: CreateFetch)
    requires !(fetch.Answer? && !fetch.ok)
    ensures CreateOutcomeIntended(s, fetch) == CreateOutcome(s, fetch)
  {
  }

  /** The dialog's state. */
  class CreatePlaylistDialog {
    var playlistName: string
    var error: string
    var isOpen: bool

    function State(): DialogState
      reads this
    {
      DialogState(playlistName, error, isOpen)
    }

    constructor ()
      ensures State() == DialogState("", "", false)
    {
      playlistName, error, isOpen := "", "", false;
    }

    /** The input's `onChange`: the new text replaces the name and clears the error. */
    method OnChange(value: string)
      modifies this
      ensures State() == old(State()).(playlistName := value, error := "")
    {
      playlistName := value;
      error := "";
    }

    /** `onOpenChange`. */
    method SetOpen(open: bool)
      modifies this
      ensures State() == old(State()).(isOpen := open)
    {
      isOpen := open;
    }

    /** `handleCreate` as written, step by step: `consumed` records that the body has
        been read, so a second read rejects. */
    method HandleCreate(fetch: CreateFetch)
      modifies this
      ensures State() == CreateOutcome(old(State()), fetch)
    {
      if IsBlank(playlistName) {
        error := NameRequired;
        return;
      }
      if Utf16Length(playlistName) < MinNameLength {
        error := NameTooShort;
        return;
      }
      if fetch.NetworkError? {
        error := InternalServerError;
        return;
      }
      var consumed := false;
      if !fetch.ok {
        consumed := true;
        error := ServerMessage(fetch.body);
      }
      if consumed || fetch.body.NotJson? {
        error := InternalServerError;
        return;
      }
      playlistName := "";
      error := "";
      isOpen := false;
    }

    /** `handleCreate` with a refused request ending the handler after its message. */
    method HandleCreateIntended(fetch: CreateFetch)
      modifies this
      ensures State() == CreateOutcomeIntended(old(State()), fetch)
    {
      if IsBlank(playlistName) {
        error := NameRequired;
        return;
      }
      if Utf16Length(playlistName) < MinNameLength {
        error := NameTooShort;
        return;
      }
      if fetch.NetworkError? {
        error := InternalServerError;
        return;
      }
      if !fetch.ok {
        error := ServerMessage(fetch.body);
        return;
      }
      if fetch.body.NotJson? {
        error := InternalServerError;
        return;
      }
      playlistName := "";
      error := "";
      isOpen := false;
    }
  }
}
