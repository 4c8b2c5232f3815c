/**
 * The list of users currently in the office: each user's note draft, which row is
 * being edited, and the order of the rows.
 */
module EnteredUsers {
  import opened Common
  import opened Js
  import opened Sorting

  /**
   * `EnteredUser`: `note` is whatever the API sent; `enteredAt` is the entry time
   * in milliseconds, absent when the API sent no (or an empty) timestamp.
   */
  datatype EnteredUser = EnteredUser(
    id: int,
    name: string,
    note: JsValue,
    enteredAt: Option<int>,
    iconFileName: Option<string>)

  /** `normalizeNoteValue(value)`. */
  function NormalizeNoteValue(value: JsValue): (r: string)
    ensures value.Str? ==> r == value.s
    ensures Nullish(value) ==> r == ""
    ensures !value.Str? && !Nullish(value) ==> r == ToJsString(value) && r != ""
  {
    if value.Str? then value.s
    else if value.Null? || value.Undefined? then ""
    else ToJsString(value)
  }

  /** The note normaliser is the same text coercion the credential store applies. */
  lemma NormalizeNoteValueIsTextOf(value: JsValue)
    ensures NormalizeNoteValue(value) == TextOf(value)
  {
  }

  /** The note map the effect on `users` builds, one user at a time. */
  function NotesFor(users: seq<EnteredUser>): map<int, string>
    decreases |users|
  {
    if users == [] then map[]
    else
      var last := users[|users| - 1];
      NotesFor(users[..|users| - 1])[last.id := NormalizeNoteValue(last.note)]
  }

  /** The note map has one entry per id in `users`, and the last user with an id wins. */
  lemma {:induction false} NotesForContents(users: seq<EnteredUser>)
    ensures NotesFor(users).Keys == set u | u in users :: u.id
    ensures forall i :: 0 <= i < |users| && (forall j :: i < j < |users| ==> users[j].id != users[i].id) ==>
      NotesFor(users)[users[i].id] == NormalizeNoteValue(users[i].note)
    decreases |users|
  {
    if users != [] {
      var init := users[..|users| - 1];
      var last := users[|users| - 1];
      NotesForContents(init);
      assert forall u :: u in users <==> u in init || u == last;
      assert forall i :: 0 <= i < |init| ==> init[i] == users[i];
    }
  }

  /** `notes[id]` passed through `normalizeNoteValue`: the draft, or `""` when there is none. */
  function NoteOf(notes: map<int, string>, id: int): (r: string)
    ensures id in notes ==> r == notes[id]
    ensures id !in notes ==> r == ""
  {
    if id in notes then notes[id] else ""
  }

  /** `enteredAt ? new Date(enteredAt).getTime() : 0`. */
  function EntryTime(user: EnteredUser): int {
    user.enteredAt.GetOr(0)
  }

  /** The comparator of `sortedUsers`. */
  function ByEntryTime(): (EnteredUser, EnteredUser) -> int {
    (a: EnteredUser, b: EnteredUser) => EntryTime(a) - EntryTime(b)
  }

  /** `sortedUsers`: a sorted copy, so the `users` prop itself keeps its order. */
  function SortedUsers(users: seq<EnteredUser>): (r: seq<EnteredUser>)
    ensures multiset(r) == multiset(users)
    ensures |r| == |users|
  {
    Sort(users, ByEntryTime())
  }

  /** The rows are in order of entry, earliest first, whatever positions are compared. */
  lemma {:induction false} SortedUsersByEntryTime(users: seq<EnteredUser>)
    ensures var r := SortedUsers(users);
      forall i, j :: 0 <= i < j < |r| ==> EntryTime(r[i]) <= EntryTime(r[j])
  {
    var r := SortedUsers(users);
    assert SignAntisymmetric(ByEntryTime()) by {
      forall a: EnteredUser, b: EnteredUser
        ensures Sign(ByEntryTime()(a, b)) == -Sign(ByEntryTime()(b, a))
      {
      }
    }
    SortSorted(users, ByEntryTime());
    forall i, j | 0 <= i < j < |r| ensures EntryTime(r[i]) <= EntryTime(r[j]) {
      EntryTimeChain(r, i, j);
    }
  }

  lemma {:induction false} EntryTimeChain(r: seq<EnteredUser>, i: int, j: int)
    requires Sorted(r, ByEntryTime())
    requires 0 <= i <= j < |r|
    ensures EntryTime(r[i]) <= EntryTime(r[j])
    decreases j - i
  {
    if i < j {
      EntryTimeChain(r, i, j - 1);
      assert ByEntryTime()(r[j - 1], r[j]) <= 0;
    }
  }

  /** What one row shows. */
  datatype ItemView = ItemView(isMe: bool, noteValue: string, editing: bool)

  /** The call `handleSave` makes: `onSaveNote(userId, note)`. */
  datatype SaveCall = SaveCall(userId: int, note: string)

  class EnteredUsersList {
    /** The signed-in user, if any (the `me` prop). */
    var me: Option<User>
    /** The `users` prop. */
    var users: seq<EnteredUser>
    var notes: map<int, string>
    var editingId: Option<int>

    /** Only the signed-in user's own row can be in editing mode. */
    predicate Valid()
      reads this
    {
      editingId.Some? ==> me.Some? && editingId.value == me.value.id
    }

    /** A freshly mounted list, before its effect has seen any users. */
    constructor (me: Option<User>)
      ensures this.me == me && users == [] && notes == map[] && editingId == None
      ensures Valid()
    {
      this.me := me;
      users := [];
      notes := map[];
      editingId := None;
    }

    /** The effect on `users`: a fresh note map and no row in editing mode. */
    method ReceiveUsers(newUsers: seq<EnteredUser>)
      modifies this
      ensures users == newUsers && notes == NotesFor(newUsers) && editingId == None
      ensures me == old(me)
      ensures Valid()
    {
      var initialNotes: map<int, string> := map[];
      var i := 0;
      while i < |newUsers|
        invariant 0 <= i <= |newUsers|
        invariant initialNotes == NotesFor(newUsers[..i])
      {
        assert newUsers[..i + 1][..i] == newUsers[..i];
        initialNotes := initialNotes[newUsers[i].id := NormalizeNoteValue(newUsers[i].note)];
        i := i + 1;
      }
      assert newUsers[..|newUsers|] == newUsers;
      users := newUsers;
      notes := initialNotes;
      editingId := None;
    }

    /**
     * A re-render with a new `me` prop: no effect depends on `me`, so the notes and the
     * row in editing mode stay. The editing row then stays `me`'s own exactly when no
     * row was being edited or the new `me` has the same id as the old one.
     */
    method ReceiveMe(newMe: Option<User>)
      modifies this
      ensures me == newMe
      ensures users == old(users) && notes == old(notes) && editingId == old(editingId)
      ensures old(Valid()) ==>
        (Valid() <==> old(editingId).None? || (newMe.Some? && newMe.value.id == old(me).value.id))
    {
      me := newMe;
    }

    /** `onChangeNote(value)` of the row for `id`: only that user's draft changes. */
    method ChangeNote(id: int, value: string)
      modifies this
      ensures notes == old(notes)[id := value]
      ensures me == old(me) && users == old(users) && editingId == old(editingId)
    {
      notes := notes[id := value];
    }

    /** `handleEdit(id)`: editing starts only on the signed-in user's own row. */
    method HandleEdit(id: int)
      modifies this
      ensures editingId == if me.Some? && me.value.id == id then Some(id) else old(editingId)
      ensures me == old(me) && users == old(users) && notes == old(notes)
      ensures old(Valid()) ==> Valid()
    {
      if me.None? || me.value.id != id {
        return;
      }
      editingId := Some(id);
    }

    /** `handleCancel()`. */
    method HandleCancel()
      modifies this
      ensures editingId == None
      ensures me == old(me) && users == old(users) && notes == old(notes)
      ensures Valid()
    {
      editingId := None;
    }

    /**
     * `handleSave(id)`: hands the draft to `onSaveNote`, then leaves editing mode;
     * `saved` is how that call settles, and a rejection keeps the row in editing mode.
     */
    method HandleSave(id: int, saved: Attempt<()>) returns (call: SaveCall)
      modifies this
      ensures call == SaveCall(id, NoteOf(old(notes), id))
      ensures editingId == if saved.Done? then None else old(editingId)
      ensures me == old(me) && users == old(users) && notes == old(notes)
      ensures old(Valid()) ==> Valid()
    {
      var note := NoteOf(notes, id);
      call := SaveCall(id, note);
      if saved.Done? {
        editingId := None;
      }
    }

    /** The props of the row for `item`. */
    function ViewOf(item: EnteredUser): (r: ItemView)
      reads this
      ensures r.isMe <==> me.Some? && me.value.id == item.id
      ensures r.noteValue == NoteOf(notes, item.id)
      ensures r.editing <==> editingId == Some(item.id)
    {
      ItemView(me.Some? && me.value.id == item.id, NoteOf(notes, item.id), editingId == Some(item.id))
    }
  }

  /** In a valid list, a row in editing mode is always the signed-in user's own row. */
  lemma EditingRowIsMine(list: EnteredUsersList, item: EnteredUser)
    requires list.Valid()
    requires list.ViewOf(item).editing
    ensures list.ViewOf(item).isMe
  {
  }

  /** Right after new users arrive, every row shows that user's normalised note. */
  lemma FreshNotesShowNotes(users: seq<EnteredUser>, i: int)
    requires 0 <= i < |users|
    requires forall j :: 0 <= j < |users| && j != i ==> users[j].id != users[i].id
    ensures NoteOf(NotesFor(users), users[i].id) == NormalizeNoteValue(users[i].note)
  {
    NotesForContents(users);
    assert users[i].id in NotesFor(users).Keys;
  }
}
