/** The "create playlist" and "create library" modals. Both keep the typed name
    as state; pressing Create (or Enter in the field) rejects a blank name and
    otherwise emits one new record through the parent's callback and closes. */
module CreateModals {
  import opened Wrappers
  import opened Strings

  /** A playlist or library record: `{ id: Date.now(), name, songs: [] }`. */
  datatype Collection = Collection(id: int, name: string, songs: seq<int>)

  /** `!name.trim()`. */
  predicate IsBlank(name: string)
  {
    Trim(name) == ""
  }

  /** The record `handleCreate` emits for the typed `name` when the clock reads
      `now`; `None` when the name is blank (the error notice is shown instead). */
  function NewCollection(name: string, now: int): (r: Option<Collection>)
    ensures r.None? <==> forall i :: 0 <= i < |name| ==> IsJsSpace(name[i])
    ensures r.Some? ==> r.value.name == name && r.value.songs == [] && r.value.id == now
  {
    TrimEmptyIffAllSpace(name);
    if IsBlank(name) then None else Some(Collection(now, name, []))
  }

  /** The playlist modal. */
  class PlaylistModal {
    var name: string

    constructor ()
      ensures name == ""
    {
      name := "";
    }

    /** The field's `onChange`. */
    method SetName(value: string)
      modifies this
      ensures name == value
    {
      name := value;
    }

    /** The Create button: what goes to `onPlaylistCreated` (at most one record)
        and whether `onClose` is called afterwards. */
    method HandleCreate(now: int) returns (emitted: Option<Collection>, closed: bool)
      ensures emitted.None? <==> forall i :: 0 <= i < |name| ==> IsJsSpace(name[i])
      ensures emitted.Some? ==> emitted == Some(Collection(now, name, []))
      ensures closed <==> emitted.Some?
    {
      emitted := NewCollection(name, now);
      closed := emitted.Some?;
    }

    /** The field's `onKeyPress`: Enter performs exactly the Create logic, any other key nothing. */
    method KeyPress(key: string, now: int) returns (emitted: Option<Collection>, closed: bool)
      ensures key == "Enter" ==> emitted == NewCollection(name, now) && closed == emitted.Some?
      ensures key != "Enter" ==> emitted.None? && !closed
    {
      if key == "Enter" {
        emitted, closed := HandleCreate(now);
      } else {
        emitted, closed := None, false;
      }
    }
  }

  /** The library modal: the same logic, emitting to `onLibraryCreated`. */
  class LibraryModal {
    var name: string

    constructor ()
      ensures name == ""
    {
      name := "";
    }

    /** The field's `onChange`. */
    method SetName(value: string)
      modifies this
      ensures name == value
    {
      name := value;
    }

    /** The Create button: what goes to `onLibraryCreated` (at most one record)
        and whether `onClose` is called afterwards. */
    method HandleCreate(now: int) returns (emitted: Option<Collection>, closed: bool)
      ensures emitted.None? <==> forall i :: 0 <= i < |name| ==> IsJsSpace(name[i])
      ensures emitted.Some? ==> emitted == Some(Collection(now, name, []))
      ensures closed <==> emitted.Some?
    {
      emitted := NewCollection(name, now);
      closed := emitted.Some?;
    }

    /** The field's `onKeyPress`: Enter performs exactly the Create logic, any other key nothing. */
    method KeyPress(key: string, now: int) returns (emitted: Option<Collection>, closed: bool)
      ensures key == "Enter" ==> emitted == NewCollection(name, now) && closed == emitted.Some?
      ensures key != "Enter" ==> emitted.None? && !closed
    {
      if key == "Enter" {
        emitted, closed := HandleCreate(now);
      } else {
        emitted, closed := None, false;
      }
    }
  }
}
