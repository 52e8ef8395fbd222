/** The application shell (App.tsx): the signed-in user, the page shown, the theme, and the
    recordings of the user, kept beside the stored lists they come from.

    The browser's storage is modelled by fields holding the stored user, users, recordings and
    theme; their JSON encoding, the clock that stamps identifiers and dates, and the failure to
    parse a corrupted stored session are outside the model. */
module App {
  import opened Util
  import opened Types

  datatype Page = SelectionPage | RecordingsPage | GoalsPage | ProfilePage

  // ---------------------------------------------------------------------------
  // The list operations

  /** `loadUserRecordings`' filter: the recordings of one user, in stored order. */
  function UserRecordings(all: seq<Recording>, userId: string): (r: seq<Recording>)
    ensures |r| <= |all|
    ensures forall i :: 0 <= i < |r| ==> r[i].userId == userId
  {
    if all == [] then []
    else (if all[0].userId == userId then [all[0]] else []) + UserRecordings(all[1..], userId)
  }

  /** The filter keeps exactly the user's recordings. */
  lemma {:induction false} UserRecordingsMembers(all: seq<Recording>, userId: string, x: Recording)
    ensures x in UserRecordings(all, userId) <==> x in all && x.userId == userId
  {
    if all != [] {
      UserRecordingsMembers(all[1..], userId, x);
      assert all == [all[0]] + all[1..];
    }
  }

  /** The filter keeps the stored order: filtering a concatenation concatenates the filtered
      parts. */
  lemma {:induction false} UserRecordingsAppend(a: seq<Recording>, b: seq<Recording>, userId: string)
    ensures UserRecordings(a + b, userId) == UserRecordings(a, userId) + UserRecordings(b, userId)
  {
    if a == [] {
      assert a + b == b;
    } else {
      var head := if a[0].userId == userId then [a[0]] else [];
      var ab := a + b;
      assert ab[0] == a[0] && ab[1..] == a[1..] + b;
      calc {
        UserRecordings(ab, userId);
        head + UserRecordings(a[1..] + b, userId);
        { UserRecordingsAppend(a[1..], b, userId); }
        head + (UserRecordings(a[1..], userId) + UserRecordings(b, userId));
        (head + UserRecordings(a[1..], userId)) + UserRecordings(b, userId);
      }
    }
  }

  /** `handleUpdateProfile`'s map: the users with the updated user's id replaced by it. */
  function ReplaceById(users: seq<User>, updated: User): (r: seq<User>)
    ensures |r| == |users|
    ensures forall i :: 0 <= i < |users| ==> r[i] == if users[i].id == updated.id then updated else users[i]
  {
    if users == [] then []
    else [if users[0].id == updated.id then updated else users[0]] + ReplaceById(users[1..], updated)
  }

  /** Replacing twice is replacing once, and a list without the id is left as it is. */
  lemma ReplaceByIdProperties(users: seq<User>, updated: User)
    ensures ReplaceById(ReplaceById(users, updated), updated) == ReplaceById(users, updated)
    ensures (forall i :: 0 <= i < |users| ==> users[i].id != updated.id) ==> ReplaceById(users, updated) == users
    ensures (exists i :: 0 <= i < |users| && users[i].id == updated.id) ==> updated in ReplaceById(users, updated)
  {
  }

  /** `addRecording`'s record: the draft stamped with its id, its owner and its date. */
  function Stamp(draft: RecordingDraft, id: string, userId: string, date: string): (r: Recording)
    ensures r.id == id && r.userId == userId && r.date == date
    ensures RecordingDraft(r.exercise, r.difficulty, r.transcript, r.analysis, r.userAudioUrl, r.aiAudioUrl) == draft
  {
    Recording(id, userId, date, draft.exercise, draft.difficulty, draft.transcript, draft.analysis,
              draft.userAudioUrl, draft.aiAudioUrl)
  }

  /** Prepending a stamped recording to both lists keeps the shown list equal to the signed-in
      user's part of the stored list. */
  lemma PrependKeepsInSync(stored: seq<Recording>, shown: seq<Recording>, rec: Recording, userId: string)
    requires shown == UserRecordings(stored, userId) && rec.userId == userId
    ensures [rec] + shown == UserRecordings([rec] + stored, userId)
  {
    assert ([rec] + stored)[1..] == stored;
  }

  function Toggled(t: Theme): (r: Theme)
    ensures r != t
  {
    if t == Dark then Light else Dark
  }

  /** Toggling twice restores the theme. */
  lemma ToggleTwice(t: Theme)
    ensures Toggled(Toggled(t)) == t
  {
  }

  // ---------------------------------------------------------------------------
  // The shell

  /** The browser storage the shell reads and writes. */
  datatype Storage = Storage(currentUser: Option<User>, users: seq<User>, recordings: seq<Recording>, theme: Option<Theme>)

  class Shell {
    var currentUser: Option<User>
    var page: Page
    var recordings: seq<Recording>
    var theme: Theme
    var storage: Storage

    /** The recordings shown are the signed-in user's part of the stored ones, and none are
        shown when nobody is signed in. */
    predicate InSync()
      reads this
    {
      if currentUser.Some? then recordings == UserRecordings(storage.recordings, currentUser.value.id)
      else recordings == []
    }

    constructor(storage: Storage)
      ensures currentUser == None && page == SelectionPage && recordings == [] && theme == Dark
      ensures this.storage == storage
      ensures InSync()
    {
      currentUser, page, recordings, theme := None, SelectionPage, [], Dark;
      this.storage := storage;
    }

    /** The effect run on mount: restore the stored session, then the stored theme. */
    method Restore()
      modifies this
      requires InSync()
      ensures storage.currentUser.Some? ==> currentUser == storage.currentUser
      ensures storage.currentUser.None? ==> currentUser == old(currentUser)
      ensures theme == storage.theme.GetOr(old(theme))
      ensures page == old(page) && storage == old(storage)
      ensures InSync()
    {
      if storage.currentUser.Some? {
        currentUser := storage.currentUser;
        LoadUserRecordings(currentUser.value.id);
      }
      if storage.theme.Some? {
        theme := storage.theme.value;
      }
    }

    method ToggleTheme()
      modifies this
      ensures theme == Toggled(old(theme)) && storage == old(storage).(theme := Some(theme))
      ensures currentUser == old(currentUser) && page == old(page) && recordings == old(recordings)
    {
      var newTheme := if theme == Dark then Light else Dark;
      theme := newTheme;
      storage := storage.(theme := Some(newTheme));
    }

    method LoadUserRecordings(userId: string)
      modifies this
      ensures recordings == UserRecordings(storage.recordings, userId)
      ensures currentUser == old(currentUser) && page == old(page) && theme == old(theme) && storage == old(storage)
    {
      recordings := UserRecordings(storage.recordings, userId);
    }

    method HandleLogin(user: User)
      modifies this
      ensures currentUser == Some(user) && page == SelectionPage && theme == old(theme)
      ensures storage == old(storage).(currentUser := Some(user))
      ensures recordings == UserRecordings(storage.recordings, user.id)
      ensures InSync()
    {
      currentUser := Some(user);
      storage := storage.(currentUser := Some(user));
      LoadUserRecordings(user.id);
      page := SelectionPage;
    }

    method HandleLogout()
      modifies this
      ensures currentUser == None && recordings == [] && page == SelectionPage && theme == old(theme)
      ensures storage == old(storage).(currentUser := None)
      ensures InSync()
    {
      currentUser := None;
      storage := storage.(currentUser := None);
      recordings := [];
      page := SelectionPage;
    }

    /** `addRecording`: without a signed-in user nothing happens; otherwise the stamped recording
        goes first in the stored list and in the shown list. */
    method AddRecording(draft: RecordingDraft, id: string, date: string)
      modifies this
      requires InSync()
      ensures old(currentUser).None? ==> recordings == old(recordings) && storage == old(storage)
      ensures old(currentUser).Some? ==>
        var rec := Stamp(draft, id, old(currentUser).value.id, date);
        && recordings == [rec] + old(recordings)
        && storage == old(storage).(recordings := [rec] + old(storage).recordings)
      ensures currentUser == old(currentUser) && page == old(page) && theme == old(theme)
      ensures InSync()
    {
      if currentUser.None? {
        return;
      }
      var recording := Stamp(draft, id, currentUser.value.id, date);
      PrependKeepsInSync(storage.recordings, recordings, recording, currentUser.value.id);
      storage := storage.(recordings := [recording] + storage.recordings);
      recordings := [recording] + recordings;
    }

    /** `handleUpdateProfile`: the user becomes the signed-in user and replaces the stored users
        with its id. */
    method HandleUpdateProfile(updated: User)
      modifies this
      ensures currentUser == Some(updated)
      ensures storage == old(storage).(currentUser := Some(updated), users := ReplaceById(old(storage).users, updated))
      ensures page == old(page) && theme == old(theme) && recordings == old(recordings)
    {
      currentUser := Some(updated);
      storage := storage.(currentUser := Some(updated));
      storage := storage.(users := ReplaceById(storage.users, updated));
    }

    /** The page switch of the navigation. */
    method Navigate(p: Page)
      modifies this
      ensures page == p
      ensures currentUser == old(currentUser) && recordings == old(recordings) && theme == old(theme) && storage == old(storage)
    {
      page := p;
    }
  }
}
