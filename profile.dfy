/**
 * The profile page: the profile row is looked up by the lower-cased stored
 * wallet address and created with defaults the first time; saving uploads a
 * picked avatar, upserts the row under the same key and reloads it.
 *
 * The store's answers are inputs (`selectOk`, `insertOk`, `upsertOk`,
 * `reloadOk`); the public URL the storage service gives an uploaded path is
 * the function `publicUrlOf`.
 */
module Profiles {
  import opened Wrappers
  import opened Text
  import opened Browser
  import opened Backend

  const AvatarBucket: string := "avatars"
  const UsernamePrefix: string := "User_"

  /** The row created for an address that has none yet. */
  function DefaultProfile(walletAddress: string): Profile {
    Profile(Lower(walletAddress), UsernamePrefix + Slice(walletAddress, 2, 8), Some(""), "")
  }

  /**
   * The default row is stored under the wallet address lower-cased (a key
   * that lower-casing leaves alone), with an empty bio and avatar, and a
   * username made of the prefix and characters [2, 8) of the address as typed:
   * all six for an address of eight or more characters, the rest from the
   * third character on for a shorter one, nothing for one of two or fewer.
   */
  lemma DefaultProfileSpec(walletAddress: string)
    ensures var p := DefaultProfile(walletAddress);
      && p.address == Lower(walletAddress)
      && Lower(p.address) == p.address
      && p.bio == Some("") && p.avatarUrl == ""
      && StartsWith(p.username, UsernamePrefix)
      && |p.username| <= |UsernamePrefix| + 6
      && (|walletAddress| >= 8 ==> p.username == UsernamePrefix + walletAddress[2..8])
      && (2 <= |walletAddress| < 8 ==> p.username == UsernamePrefix + walletAddress[2..])
      && (|walletAddress| <= 2 ==> p.username == UsernamePrefix)
  {
    LowerIdempotent(walletAddress);
    if |walletAddress| >= 8 {
      SliceWithin(walletAddress, 2, 8);
    } else if |walletAddress| >= 2 {
      SliceWithin(walletAddress, 2, |walletAddress|);
    }
  }

  /** `avatars/<address, lower-cased>-<Date.now()>`. */
  function AvatarPath(walletAddress: string, now: nat): string {
    "avatars/" + Lower(walletAddress) + "-" + Decimal(now)
  }

  /** Two saves by one address at different instants never overwrite each other's avatar. */
  lemma AvatarPathDistinct(walletAddress: string, now1: nat, now2: nat)
    requires AvatarPath(walletAddress, now1) == AvatarPath(walletAddress, now2)
    ensures now1 == now2
  {
    var prefix := "avatars/" + Lower(walletAddress) + "-";
    var p1, p2 := AvatarPath(walletAddress, now1), AvatarPath(walletAddress, now2);
    assert p1 == prefix + Decimal(now1) && p2 == prefix + Decimal(now2);
    assert Decimal(now1) == p1[|prefix|..];
    assert Decimal(now2) == p2[|prefix|..];
    DecimalInjective(now1, now2);
  }

  /** The row an upsert writes: the edited fields under the lower-cased key, a missing bio as "". */
  function SavedProfile(profile: Profile, walletAddress: string, avatarUrl: string): Profile {
    Profile(Lower(walletAddress), profile.username, Some(profile.bio.GetOr("")), avatarUrl)
  }

  /** What `handleSubmit` ended with. */
  datatype SaveOutcome = NotSaved | SaveFailed | Saved

  class ProfilePage {
    var loading: bool
    var saving: bool
    var profile: Option<Profile>
    var avatar: Option<FileInfo>
    /**
     * `localStorage.getItem('walletAddress')`. The component reads it on every
     * render; the model reads it once and treats it as constant while the page
     * is shown.
     */
    const walletAddress: Option<string>

    constructor (storage: LocalStorage)
      ensures walletAddress == storage.GetItem(WalletAddressKey)
      ensures loading && !saving && profile == None && avatar == None
    {
      walletAddress := storage.GetItem(WalletAddressKey);
      loading, saving, profile, avatar := true, false, None, None;
    }

    /** `handleAvatarChange`: only a picked file replaces the current one. */
    method PickAvatar(file: Option<FileInfo>)
      modifies this`avatar
      ensures avatar == if file.Some? then file else old(avatar)
    {
      if file.Some? {
        avatar := file;
      }
    }

    /** The username field: edits the loaded profile; with none loaded there is nothing to edit. */
    method EditUsername(text: string)
      modifies this`profile
      ensures profile == if old(profile).Some? then Some(old(profile).value.(username := text)) else None
    {
      if profile.Some? {
        profile := Some(profile.value.(username := text));
      }
    }

    /** The bio field: edits the loaded profile; with none loaded there is nothing to edit. */
    method EditBio(text: string)
      modifies this`profile
      ensures profile == if old(profile).Some? then Some(old(profile).value.(bio := Some(text))) else None
    {
      if profile.Some? {
        profile := Some(profile.value.(bio := Some(text)));
      }
    }

    /**
     * `loadProfile`. Without a stored address nothing happens (and loading
     * stays on). Otherwise loading ends, and: a row under the lower-cased
     * address is shown; if there is none, the default row is inserted and
     * shown; a failed read or insert leaves the profile as it was.
     */
    method LoadProfile(db: Store, selectOk: bool, insertOk: bool)
      requires db.Valid()
      modifies this`loading, this`profile, db`profiles
      ensures db.Valid()
      ensures !Present(walletAddress) ==>
        && loading == old(loading) && profile == old(profile) && db.profiles == old(db.profiles)
      ensures Present(walletAddress) ==>
        var key := Lower(walletAddress.value);
        && !loading
        && if !selectOk then
             profile == old(profile) && db.profiles == old(db.profiles)
           else if key in old(db.profiles) then
             profile == Some(old(db.profiles)[key]) && db.profiles == old(db.profiles)
           else if !insertOk then
             profile == old(profile) && db.profiles == old(db.profiles)
           else
             && db.profiles == old(db.profiles)[key := DefaultProfile(walletAddress.value)]
             && profile == Some(DefaultProfile(walletAddress.value))
    {
      if walletAddress.None? || walletAddress.value == "" {
        return;
      }
      var key := Lower(walletAddress.value);
      if selectOk {
        if key in db.profiles {
          profile := Some(db.profiles[key]);
        } else if insertOk {
          var created := DefaultProfile(walletAddress.value);
          LowerIdempotent(walletAddress.value);
          db.UpsertProfile(created);
          profile := Some(created);
        }
      }
      loading := false;
    }

    /**
     * `handleSubmit`. Needs a loaded profile and a stored address. A picked
     * avatar is uploaded under its path and its public URL replaces the old
     * one; the row is upserted under the lower-cased address; only when that
     * succeeds is the picked avatar dropped and the profile reloaded. Once a
     * save has started, saving ends off whatever happened.
     */
    method HandleSubmit(db: Store, now: nat, publicUrlOf: string -> string, upsertOk: bool, reloadOk: bool)
      returns (outcome: SaveOutcome)
      requires db.Valid()
      modifies this`saving, this`avatar, this`profile, this`loading, db`profiles, db`objects
      ensures db.Valid()
      ensures old(profile).None? || !Present(walletAddress) ==>
        && outcome == NotSaved && saving == old(saving)
        && avatar == old(avatar) && profile == old(profile) && loading == old(loading)
        && db.profiles == old(db.profiles) && db.objects == old(db.objects)
      ensures old(profile).Some? && Present(walletAddress) ==>
        var address := walletAddress.value;
        var path := AvatarPath(address, now);
        var url := if old(avatar).Some? then publicUrlOf(path) else old(profile).value.avatarUrl;
        var saved := SavedProfile(old(profile).value, address, url);
        && !saving
        && db.objects == old(db.objects) + (if old(avatar).Some? then [StoredObject(AvatarBucket, path)] else [])
        && if !upsertOk then
             && outcome == SaveFailed
             && avatar == old(avatar) && profile == old(profile) && loading == old(loading)
             && db.profiles == old(db.profiles)
           else
             && outcome == Saved
             && db.profiles == old(db.profiles)[Lower(address) := saved]
             && avatar == None && !loading
             && profile == if reloadOk then Some(saved) else old(profile)
    {
      if profile.None? || walletAddress.None? || walletAddress.value == "" {
        return NotSaved;
      }
      saving := true;
      var address := walletAddress.value;
      var avatarUrl := profile.value.avatarUrl;
      if avatar.Some? {
        var path := AvatarPath(address, now);
        db.Upload(AvatarBucket, path);
        avatarUrl := publicUrlOf(path);
      }
      if !upsertOk {
        saving := false;
        return SaveFailed;
      }
      var saved := SavedProfile(profile.value, address, avatarUrl);
      LowerIdempotent(address);
      db.UpsertProfile(saved);
      avatar := None;
      LoadProfile(db, reloadOk, false);
      outcome := Saved;
      saving := false;
    }
  }

  /**
   * Loading twice creates at most one row: once the first load has found or
   * created the row under the lower-cased address, a second load shows that
   * same row and writes nothing.
   */
  method LoadProfileTwice(page: ProfilePage, db: Store, insertOk: bool, secondInsertOk: bool)
    returns (first: Option<Profile>, between: map<string, Profile>)
    requires db.Valid()
    modifies page`loading, page`profile, db`profiles
    ensures db.Valid()
    ensures Present(page.walletAddress) ==>
      var key := Lower(page.walletAddress.value);
      && (key in between <==> key in old(db.profiles) || insertOk)
      && (key in between ==> db.profiles == between && page.profile == first == Some(between[key]))
  {
    page.LoadProfile(db, true, insertOk);
    first, between := page.profile, db.profiles;
    page.LoadProfile(db, true, secondInsertOk);
  }
}
