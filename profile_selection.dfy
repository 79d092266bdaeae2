/** The profile picker: an in-memory list of profiles that can be added to
    and renamed, a create dialog, an edit dialog and a "manage profiles" mode. */
module ProfileSelection {
  import opened Text

  datatype Profile = Profile(id: int, name: string, avatarUrl: string)

  /** The profiles the page starts with. */
  const InitialProfiles: seq<Profile> := [
    Profile(1, "User 1", "https://images.unsplash.com/photo-1527980965255-d3b416303d12?w=100&h=100&fit=crop"),
    Profile(2, "User 2", "https://images.unsplash.com/photo-1580489944761-15a19d654956?w=100&h=100&fit=crop"),
    Profile(3, "Kids", "https://images.unsplash.com/photo-1522075469751-3a6694fb2f61?w=100&h=100&fit=crop")
  ]

  // ---------------------------------------------------------------------------
  // The list transforms

  /** Every profile's id is its position counted from one. Nothing removes a
      profile, so this holds throughout and ids never repeat. */
  predicate SequentialIds(ps: seq<Profile>) {
    forall i :: 0 <= i < |ps| ==> ps[i].id == i + 1
  }

  lemma InitialIdsSequential()
    ensures SequentialIds(InitialProfiles)
  {
  }

  /** With sequential ids no two profiles share an id. */
  lemma SequentialIdsUnique(ps: seq<Profile>)
    requires SequentialIds(ps)
    ensures forall i, j :: 0 <= i < |ps| && 0 <= j < |ps| && ps[i].id == ps[j].id ==> i == j
  {
  }

  /** Creating a profile: the list with one profile more at the end, whose id
      is the old length plus one. */
  function AppendProfile(ps: seq<Profile>, name: string, avatarUrl: string): (r: seq<Profile>)
    ensures |r| == |ps| + 1 && r[..|ps|] == ps
    ensures r[|ps|].id == |ps| + 1 && r[|ps|].name == name && r[|ps|].avatarUrl == avatarUrl
  {
    ps + [Profile(|ps| + 1, name, avatarUrl)]
  }

  /** Appending keeps the ids sequential, and the new id is not one any
      existing profile has. */
  lemma AppendKeepsSequentialIds(ps: seq<Profile>, name: string, avatarUrl: string)
    requires SequentialIds(ps)
    ensures SequentialIds(AppendProfile(ps, name, avatarUrl))
    ensures forall p :: p in ps ==> p.id != |ps| + 1
  {
    var r := AppendProfile(ps, name, avatarUrl);
    forall i | 0 <= i < |r|
      ensures r[i].id == i + 1
    {
      if i < |ps| {
        assert r[i] == r[..|ps|][i];
      }
    }
  }

  /** Renaming: every profile whose id is `id` gets the new name; ids, avatars,
      order, length and every other profile stay as they were. */
  function RenameProfile(ps: seq<Profile>, id: int, name: string): (r: seq<Profile>)
    ensures |r| == |ps|
    ensures forall i :: 0 <= i < |ps| ==>
      && r[i].id == ps[i].id
      && r[i].avatarUrl == ps[i].avatarUrl
      && r[i].name == (if ps[i].id == id then name else ps[i].name)
  {
    if ps == [] then []
    else [if ps[0].id == id then ps[0].(name := name) else ps[0]] + RenameProfile(ps[1..], id, name)
  }

  /** Renaming keeps the ids sequential; with sequential ids it renames
      exactly the profile at position `id - 1` when that position exists, and
      nothing at all otherwise. */
  lemma RenameKeepsSequentialIds(ps: seq<Profile>, id: int, name: string)
    requires SequentialIds(ps)
    ensures SequentialIds(RenameProfile(ps, id, name))
    ensures 1 <= id <= |ps| ==> RenameProfile(ps, id, name) == ps[id - 1 := ps[id - 1].(name := name)]
    ensures !(1 <= id <= |ps|) ==> RenameProfile(ps, id, name) == ps
  {
    var r := RenameProfile(ps, id, name);
    forall i | 0 <= i < |ps| && i != id - 1
      ensures r[i] == ps[i]
    {
      assert ps[i].id == i + 1;
    }
    if 1 <= id <= |ps| {
      var u := ps[id - 1 := ps[id - 1].(name := name)];
      assert r[id - 1] == u[id - 1];
      assert forall i :: 0 <= i < |ps| ==> r[i] == u[i];
      assert r == u;
    } else {
      assert forall i :: 0 <= i < |ps| ==> r[i] == ps[i];
      assert r == ps;
    }
  }

  /** The Create and Save buttons are disabled while the name is blank. */
  predicate ConfirmDisabled(name: string) {
    Trim(name) == []
  }

  /** Exactly the names made only of whitespace disable the buttons. */
  lemma ConfirmDisabledIffBlank(name: string)
    ensures ConfirmDisabled(name) <==> IsBlank(name)
  {
    TrimEmptyIffBlank(name);
  }

  // ---------------------------------------------------------------------------
  // The page

  /** A snapshot of every field of a ProfilePage. */
  datatype PageState = PageState(
    profiles: seq<Profile>,
    isCreateOpen: bool,
    isEditOpen: bool,
    newProfileName: string,
    selectedProfile: Option<Profile>,
    isEditing: bool)

  /** What the Save button does to the page. Without a selected profile or
      with a blank name nothing changes; otherwise the profile with the
      selected id is renamed, and the selection and the name field are
      cleared and the edit dialog closed. */
  function AfterUpdate(s: PageState): (after: PageState) {
    if s.selectedProfile.Some? && !ConfirmDisabled(s.newProfileName) then
      s.(profiles := RenameProfile(s.profiles, s.selectedProfile.value.id, s.newProfileName),
         selectedProfile := None, newProfileName := "", isEditOpen := false)
    else
      s
  }

  /** On a page whose ids are sequential and whose selection is on the list,
      Save with a name that is not blank renames exactly the selected profile
      and closes the dialog; a blank name changes nothing. */
  lemma UpdateRenamesSelected(s: PageState)
    requires SequentialIds(s.profiles)
    requires s.selectedProfile.Some? && s.selectedProfile.value in s.profiles
    ensures ConfirmDisabled(s.newProfileName) ==> AfterUpdate(s) == s
    ensures !ConfirmDisabled(s.newProfileName) ==>
      var k := s.selectedProfile.value.id - 1;
      && 0 <= k < |s.profiles|
      && s.profiles[k] == s.selectedProfile.value
      && AfterUpdate(s).profiles == s.profiles[k := s.profiles[k].(name := s.newProfileName)]
      && AfterUpdate(s) == s.(profiles := AfterUpdate(s).profiles,
                              selectedProfile := None, newProfileName := "", isEditOpen := false)
  {
    if !ConfirmDisabled(s.newProfileName) {
      var p := s.selectedProfile.value;
      var j :| 0 <= j < |s.profiles| && s.profiles[j] == p;
      assert p.id == j + 1;
      RenameKeepsSequentialIds(s.profiles, p.id, s.newProfileName);
    }
  }

  class ProfilePage {
    var profiles: seq<Profile>
    var isCreateOpen: bool
    var isEditOpen: bool
    var newProfileName: string
    var selectedProfile: Option<Profile>
    var isEditing: bool

    function State(): (s: PageState)
      reads this
    {
      PageState(profiles, isCreateOpen, isEditOpen, newProfileName, selectedProfile, isEditing)
    }

    /** The ids stay sequential, and a selected profile is one on the list. */
    predicate Valid()
      reads this
    {
      && SequentialIds(profiles)
      && (selectedProfile.Some? ==> selectedProfile.value in profiles)
    }

    constructor ()
      ensures Valid()
      ensures State() == PageState(InitialProfiles, false, false, "", None, false)
    {
      profiles := InitialProfiles;
      isCreateOpen, isEditOpen := false, false;
      newProfileName := "";
      selectedProfile := None;
      isEditing := false;
    }

    /** The Create button. A blank name changes nothing; otherwise the profile
        is appended (with the name as typed, untrimmed), the name field is
        cleared and the dialog closed. The avatar URL is the caller's, standing
        for the timestamped one the page makes up. */
    method HandleCreateProfile(avatarUrl: string)
      requires Valid()
      modifies this
      ensures Valid()
      ensures old(ConfirmDisabled(newProfileName)) ==> State() == old(State())
      ensures !old(ConfirmDisabled(newProfileName)) ==>
        State() == old(State()).(
          profiles := AppendProfile(old(profiles), old(newProfileName), avatarUrl),
          newProfileName := "",
          isCreateOpen := false)
    {
      if !ConfirmDisabled(newProfileName) {
        assert SequentialIds(AppendProfile(profiles, newProfileName, avatarUrl)) by {
          AppendKeepsSequentialIds(profiles, newProfileName, avatarUrl);
        }
        profiles := AppendProfile(profiles, newProfileName, avatarUrl);
        newProfileName := "";
        isCreateOpen := false;
      }
    }

    /** The Save button: the page state after `AfterUpdate`. */
    method HandleUpdateProfile()
      requires Valid()
      modifies this
      ensures Valid()
      ensures State() == AfterUpdate(old(State()))
    {
      if selectedProfile.Some? && !ConfirmDisabled(newProfileName) {
        var renamed := RenameProfile(profiles, selectedProfile.value.id, newProfileName);
        assert SequentialIds(renamed) by {
          RenameKeepsSequentialIds(profiles, selectedProfile.value.id, newProfileName);
        }
        profiles, selectedProfile, newProfileName, isEditOpen := renamed, None, "", false;
      }
    }

    /** "Manage Profiles" flips edit mode. */
    method StartEditMode()
      requires Valid()
      modifies this
      ensures Valid()
      ensures State() == old(State()).(isEditing := !old(isEditing))
    {
      isEditing := !isEditing;
    }

    /** "Done" leaves edit mode. */
    method FinishEditMode()
      requires Valid()
      modifies this
      ensures Valid()
      ensures State() == old(State()).(isEditing := false)
    {
      isEditing := false;
    }

    /** Clicking a profile in edit mode: select it, prefill its name and open
        the edit dialog. The page offers only profiles on its list. */
    method OpenEditDialog(profile: Profile)
      requires Valid()
      requires profile in profiles
      modifies this
      ensures Valid()
      ensures State() == old(State()).(
        selectedProfile := Some(profile),
        newProfileName := profile.name,
        isEditOpen := true)
    {
      selectedProfile := Some(profile);
      newProfileName := profile.name;
      isEditOpen := true;
    }

    /** The "Add Profile" tile, the Cancel button and the dialog's own
        open/close notification for the create dialog. */
    method SetCreateOpen(open: bool)
      requires Valid()
      modifies this
      ensures Valid()
      ensures State() == old(State()).(isCreateOpen := open)
    {
      isCreateOpen := open;
    }

    /** The Cancel button and the dialog's own open/close notification for the
        edit dialog; the selection is kept. */
    method SetEditOpen(open: bool)
      requires Valid()
      modifies this
      ensures Valid()
      ensures State() == old(State()).(isEditOpen := open)
    {
      isEditOpen := open;
    }

    /** Typing in either dialog's name field. */
    method SetNewProfileName(name: string)
      requires Valid()
      modifies this
      ensures Valid()
      ensures State() == old(State()).(newProfileName := name)
    {
      newProfileName := name;
    }
  }

  /** Replacing the last profile of a list. */
  lemma ReplaceLast(ps: seq<Profile>, p: Profile, q: Profile)
    ensures (ps + [p])[|ps| := q] == ps + [q]
  {
  }

  /** Creating a profile and then renaming it through the edit dialog leaves
      one more profile than before, with the new name, at the end. */
  method CreateThenRename(page: ProfilePage, first: string, second: string, avatarUrl: string)
    requires page.Valid()
    requires !IsBlank(first) && !IsBlank(second)
    modifies page
    ensures page.Valid()
    ensures |page.profiles| == |old(page.profiles)| + 1
    ensures page.profiles[..|old(page.profiles)|] == old(page.profiles)
    ensures page.profiles[|old(page.profiles)|] == Profile(|old(page.profiles)| + 1, second, avatarUrl)
  {
    var before := page.profiles;
    assert !ConfirmDisabled(first) && !ConfirmDisabled(second) by {
      ConfirmDisabledIffBlank(first);
      ConfirmDisabledIffBlank(second);
    }
    page.SetNewProfileName(first);
    assert !ConfirmDisabled(page.newProfileName);
    page.HandleCreateProfile(avatarUrl);
    var created := Profile(|before| + 1, first, avatarUrl);
    assert page.profiles == before + [created];
    page.OpenEditDialog(created);
    page.SetNewProfileName(second);
    var editing := page.State();
    assert editing.profiles == before + [created];
    assert editing.selectedProfile == Some(created) && editing.newProfileName == second;
    UpdateRenamesSelected(editing);
    page.HandleUpdateProfile();
    ReplaceLast(before, created, created.(name := second));
  }
}
