/** The role picker: on mount it restores an earlier role (from
    localStorage for guests, from the profile API otherwise); saving stores
    the role the same way. The token fetch, the profile request and the
    save request are inputs; the calls of `onRoleSelected` and the roles
    posted are recorded; localStorage is a `Storage` object. */
module RoleSelector {
  import opened Common
  import opened Storage
  import Auth

  /** The profile GET: its `role`, possibly absent, or a failure. */
  datatype ProfileFetch = Profile(role: Option<string>) | ProfileFailed

  /** The profile POST: success or a failure with the server's `error`. */
  datatype PostResult = Posted | PostFailed(serverError: Option<string>)

  const SaveFailed := "Failed to save role. Please try again."

  /** The guest path: guest mode, or no (or an empty) id token. */
  predicate GuestPath(items: map<string, string>) {
    ("guestMode" in items && items["guestMode"] == "true") || "idToken" !in items || items["idToken"] == ""
  }

  /** The role stored for a guest, when it is non-empty. */
  function StoredRole(items: map<string, string>): (r: Option<string>)
    ensures r.Some? ==> r.value != ""
  {
    if "userRole" in items && items["userRole"] != "" then Some(items["userRole"]) else None
  }

  /** What a guest save writes. */
  function SaveItems(items: map<string, string>, role: string, now: string): map<string, string> {
    items["userRole" := role]["userRoleTimestamp" := now]
  }

  /** A role saved on the guest path is the one the next mount restores:
      the path stays the guest path and the stored role is that role. */
  lemma SaveThenRestore(items: map<string, string>, role: string, now: string)
    requires GuestPath(items) && role != ""
    ensures GuestPath(SaveItems(items, role, now)) && StoredRole(SaveItems(items, role, now)) == Some(role)
  {
    var s := SaveItems(items, role, now);
    assert "guestMode" in items ==> s["guestMode"] == items["guestMode"];
    assert "idToken" in items ==> s["idToken"] == items["idToken"];
  }

  class RoleSelectorView {
    const skipLocalStorage: bool
    /** Whether an `onRoleSelected` callback was passed. */
    const hasCallback: bool
    /** `TEXT.SELECT_ROLE_ERROR` in the current language. */
    const selectRoleError: string
    var selectedRole: string
    var loading: bool
    var error: string
    var existingRole: Option<string>
    /** The roles passed to `onRoleSelected`, in order. */
    var selected: seq<string>
    /** The roles posted to the profile API, in order. */
    var posted: seq<string>

    constructor(skip: bool, callback: bool, selectError: string)
      ensures skipLocalStorage == skip && hasCallback == callback && selectRoleError == selectError
      ensures selectedRole == "" && !loading && error == "" && existingRole.None? && selected == [] && posted == []
    {
      skipLocalStorage := skip;
      hasCallback := callback;
      selectRoleError := selectError;
      selectedRole := "";
      loading := false;
      error := "";
      existingRole := None;
      selected := [];
      posted := [];
    }

    /** The callback, when one was passed. */
    method Notify(role: string)
      modifies this
      ensures selected == if hasCallback then old(selected) + [role] else old(selected)
      ensures selectedRole == old(selectedRole) && existingRole == old(existingRole) && error == old(error)
      ensures loading == old(loading) && posted == old(posted)
    {
      if hasCallback {
        selected := selected + [role];
      }
    }

    /** `fetchExistingProfile`. On the guest path a stored role becomes the
        existing and the selected role and is passed on; otherwise the id
        token is fetched (which may store a fresh one) and a role in the
        profile is treated the same way. Failures are ignored. */
    method FetchExistingProfile(storage: LocalStorage, forced: Auth.SessionFetch, plain: Auth.SessionFetch,
                                profile: ProfileFetch)
      modifies this, storage
      ensures GuestPath(old(storage.items)) ==>
        storage.items == old(storage.items)
        && (StoredRole(old(storage.items)).Some? ==>
              existingRole == StoredRole(old(storage.items)) && selectedRole == StoredRole(old(storage.items)).value
              && selected == old(selected) + (if hasCallback then [selectedRole] else []))
        && (StoredRole(old(storage.items)).None? ==>
              existingRole == old(existingRole) && selectedRole == old(selectedRole) && selected == old(selected))
      ensures !GuestPath(old(storage.items)) ==>
        var t := Auth.Obtain(forced, plain);
        storage.items == (if t.Token? then old(storage.items)["idToken" := t.value] else old(storage.items))
        && (t.Token? && profile.Profile? && OrElse(profile.role, "") != "" ==>
              existingRole == profile.role && selectedRole == profile.role.value
              && selected == old(selected) + (if hasCallback then [selectedRole] else []))
        && (!(t.Token? && profile.Profile? && OrElse(profile.role, "") != "") ==>
              existingRole == old(existingRole) && selectedRole == old(selectedRole) && selected == old(selected))
      ensures !loading && error == old(error) && posted == old(posted)
    {
      loading := true;
      if GuestPath(storage.items) {
        var stored := StoredRole(storage.items);
        if stored.Some? {
          existingRole := stored;
          selectedRole := stored.value;
          Notify(stored.value);
        }
        loading := false;
        return;
      }
      var token := Auth.GetIdToken(storage, forced, plain);
      if token.Token? && profile.Profile? && profile.role.Some? && profile.role.value != "" {
        existingRole := profile.role;
        selectedRole := profile.role.value;
        Notify(profile.role.value);
      }
      loading := false;
    }

    /** The mount effect: the profile is fetched unless localStorage is to
        be skipped, with the effect `FetchExistingProfile` states. */
    method Mount(storage: LocalStorage, forced: Auth.SessionFetch, plain: Auth.SessionFetch, profile: ProfileFetch)
      modifies this, storage
      ensures skipLocalStorage ==>
        storage.items == old(storage.items) && selectedRole == old(selectedRole)
        && existingRole == old(existingRole) && selected == old(selected) && loading == old(loading)
      ensures !skipLocalStorage && GuestPath(old(storage.items)) ==>
        storage.items == old(storage.items)
        && (StoredRole(old(storage.items)).Some? ==>
              existingRole == StoredRole(old(storage.items)) && selectedRole == StoredRole(old(storage.items)).value
              && selected == old(selected) + (if hasCallback then [selectedRole] else []))
        && (StoredRole(old(storage.items)).None? ==>
              existingRole == old(existingRole) && selectedRole == old(selectedRole) && selected == old(selected))
      ensures !skipLocalStorage && !GuestPath(old(storage.items)) ==>
        var t := Auth.Obtain(forced, plain);
        storage.items == (if t.Token? then old(storage.items)["idToken" := t.value] else old(storage.items))
        && (t.Token? && profile.Profile? && OrElse(profile.role, "") != "" ==>
              existingRole == profile.role && selectedRole == profile.role.value
              && selected == old(selected) + (if hasCallback then [selectedRole] else []))
        && (!(t.Token? && profile.Profile? && OrElse(profile.role, "") != "") ==>
              existingRole == old(existingRole) && selectedRole == old(selectedRole) && selected == old(selected))
      ensures !skipLocalStorage ==> !loading
      ensures error == old(error) && posted == old(posted)
    {
      if !skipLocalStorage {
        FetchExistingProfile(storage, forced, plain, profile);
      }
    }

    /** `handleSaveRole`. Without a selected role only the error is set.
        On the guest path the role and `now` are stored unless localStorage
        is skipped, and the callback always runs; otherwise the role is
        posted with the fetched token and the callback runs once the post
        succeeds, while a failure sets the server's error or the default. */
    method SaveRole(storage: LocalStorage, now: string, forced: Auth.SessionFetch, plain: Auth.SessionFetch,
                    post: PostResult)
      modifies this, storage
      ensures old(selectedRole) == "" ==>
        error == selectRoleError && storage.items == old(storage.items) && selected == old(selected)
        && posted == old(posted) && loading == old(loading) && existingRole == old(existingRole)
      ensures old(selectedRole) != "" && GuestPath(old(storage.items)) ==>
        storage.items == (if skipLocalStorage then old(storage.items) else SaveItems(old(storage.items), selectedRole, now))
        && selected == old(selected) + (if hasCallback then [selectedRole] else [])
        && posted == old(posted) && error == ""
      ensures old(selectedRole) != "" && !GuestPath(old(storage.items)) ==>
        var t := Auth.Obtain(forced, plain);
        (t.Thrown? ==> error == SaveFailed && posted == old(posted) && selected == old(selected))
        && (t.Token? ==> posted == old(posted) + [selectedRole])
        && (t.Token? && post.Posted? ==>
              error == "" && selected == old(selected) + (if hasCallback then [selectedRole] else []))
        && (t.Token? && post.PostFailed? ==> error == OrElse(post.serverError, SaveFailed) && selected == old(selected))
      ensures old(selectedRole) != "" ==> !loading
      ensures selectedRole == old(selectedRole)
    {
      if selectedRole == "" {
        error := selectRoleError;
        return;
      }
      loading := true;
      error := "";
      if GuestPath(storage.items) {
        if !skipLocalStorage {
          storage.SetItem("userRole", selectedRole);
          storage.SetItem("userRoleTimestamp", now);
        }
        Notify(selectedRole);
        loading := false;
        return;
      }
      var token := Auth.GetIdToken(storage, forced, plain);
      if token.Thrown? {
        error := SaveFailed;
      } else {
        posted := posted + [selectedRole];
        if post.Posted? {
          Notify(selectedRole);
        } else {
          var e := post.serverError;
          error := if e.Some? && e.value != "" then e.value else SaveFailed;
        }
      }
      loading := false;
    }
  }
}
