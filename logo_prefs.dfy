/**
 * The header's logo preference (`Header`, App.tsx:37-98): three in-memory fields mirrored by
 * three keys of the browser's string key-value store. The store is a map; `getItem` on a
 * missing key is `None`, `setItem` is a map update and `removeItem` a key removal.
 */
module LogoPrefs {
  import opened Wrappers
  import opened JsNumber

  const LogoKey := "codex_custom_logo"
  const SizeKey := "codex_logo_size"
  const LockKey := "codex_logo_locked"

  /** `useState<number>(32)` */
  const DefaultSize := 32
  /** The size slider's `min` and `max`. */
  const SliderMin := 20
  const SliderMax := 60
  /** `CUSTOM_LOGO_URL`, the logo compiled into the page (App.tsx:10). */
  const CustomLogoUrl := ""

  type Store = map<string, string>

  /** What `FileReader.readAsDataURL` delivers: always a `data:` URL, never empty. */
  type DataUrl = s: string | |s| >= 5 && s[..5] == "data:" witness "data:"

  /**
   * How an upload ends: no file was selected, or the reader's `onloadend` fired with a
   * `data:` URL, or with a null result because the read failed or was aborted.
   */
  datatype Upload = NoFile | Loaded(url: DataUrl) | ReadFailed

  /** The three in-memory fields: `customLogo`, `logoSize`, `isLocked`. */
  datatype Prefs = Prefs(logo: Option<string>, size: Number, locked: bool)

  /** The state before any preference is loaded, and after a reset. */
  const Defaults := Prefs(None, Int(DefaultSize), false)

  function GetItem(st: Store, key: string): Option<string> {
    if key in st then Some(st[key]) else None
  }

  /** JavaScript truthiness of `getItem`'s result: present and not the empty string. */
  predicate Truthy(v: Option<string>) {
    v.Some? && v.value != ""
  }

  /**
   * The fields after the mount effect has read the store into the defaults: a logo only when a
   * non-empty one is stored, the parsed stored size when a non-empty one is stored and 32
   * otherwise, and locked exactly when the lock key holds "true".
   */
  function Decode(st: Store): (p: Prefs)
    ensures p.logo.Some? <==> LogoKey in st && st[LogoKey] != ""
    ensures p.logo.Some? ==> p.logo.value == st[LogoKey]
    ensures SizeKey !in st || st[SizeKey] == "" ==> p.size == Int(DefaultSize)
    ensures SizeKey in st && st[SizeKey] != "" ==> p.size == ParseInt(st[SizeKey])
    ensures p.locked <==> LockKey in st && st[LockKey] == "true"
  {
    var savedLogo := GetItem(st, LogoKey);
    var savedSize := GetItem(st, SizeKey);
    var savedLock := GetItem(st, LockKey);
    Prefs(
      if Truthy(savedLogo) then savedLogo else Defaults.logo,
      if Truthy(savedSize) then ParseInt(savedSize.value) else Defaults.size,
      savedLock == Some("true") || Defaults.locked)
  }

  /** The store after an upload (App.tsx:66). */
  function SaveLogo(st: Store, url: DataUrl): (r: Store)
    ensures GetItem(r, LogoKey) == Some(url)
    ensures forall k :: k != LogoKey ==> GetItem(r, k) == GetItem(st, k)
  {
    st[LogoKey := url]
  }

  /** The store after a failed read: `setItem` turns the null result into the string "null". */
  function SaveNullLogo(st: Store): (r: Store)
    ensures GetItem(r, LogoKey) == Some("null")
    ensures forall k :: k != LogoKey ==> GetItem(r, k) == GetItem(st, k)
  {
    st[LogoKey := "null"]
  }

  /** The store after a size change (App.tsx:75). */
  function SaveSize(st: Store, size: Number): (r: Store)
    ensures GetItem(r, SizeKey) == Some(ToString(size))
    ensures forall k :: k != SizeKey ==> GetItem(r, k) == GetItem(st, k)
  {
    st[SizeKey := ToString(size)]
  }

  /** The store after Lock (App.tsx:79). */
  function LockStore(st: Store): Store {
    st[LockKey := "true"]
  }

  /** The store after Unlock (App.tsx:84). */
  function UnlockStore(st: Store): Store {
    st - {LockKey}
  }

  /** The store after Reset (App.tsx:89-91). */
  function ResetStore(st: Store): Store {
    st - {LockKey} - {LogoKey} - {SizeKey}
  }

  /** `customLogo || CUSTOM_LOGO_URL`: the image to show, or "" for the built-in wordmark. */
  function DisplayLogo(custom: Option<string>): (src: string)
    ensures src == "" <==> custom.None? || custom.value == ""
    ensures src != "" ==> custom == Some(src)
  {
    if custom.Some? && custom.value != "" then custom.value else CustomLogoUrl
  }

  /** Storing an upload and reloading yields that upload and leaves size and lock as they were. */
  lemma UploadAgrees(st: Store, url: DataUrl)
    ensures Decode(SaveLogo(st, url)) == Decode(st).(logo := Some(url))
  {
    assert url[0] == 'd';
  }

  /**
   * After a failed read the store holds the logo "null", which reloads as a logo whose image
   * source is "null", while the session's field is null and shows the wordmark.
   */
  lemma FailedReadDiverges(st: Store)
    ensures Decode(SaveNullLogo(st)) == Decode(st).(logo := Some("null"))
    ensures DisplayLogo(Decode(SaveNullLogo(st)).logo) == "null" != DisplayLogo(None)
  {
  }

  /** Storing any size and reloading yields that size: `toString` is undone by `parseInt`. */
  lemma SizeAgrees(st: Store, size: Number)
    ensures Decode(SaveSize(st, size)) == Decode(st).(size := size)
  {
    ParseIntToString(size);
  }

  /** A slider position written as the input's value string and parsed is that position. */
  lemma SliderValueParses(position: int)
    requires SliderMin <= position <= SliderMax
    ensures ParseInt(Decimal(position)) == Int(position)
  {
    ParseIntStopsAtNonDigit(position, []);
    assert Decimal(position) + [] == Decimal(position);
  }

  /** Storing a slider size S in 20..60 and reloading yields S. */
  lemma SliderSizeRoundTrip(st: Store, position: int)
    requires SliderMin <= position <= SliderMax
    ensures Decode(SaveSize(st, ParseInt(Decimal(position)))).size == Int(position)
  {
    SliderValueParses(position);
    SizeAgrees(st, Int(position));
  }

  /** Lock writes only the lock key and reloads as locked with logo and size unchanged. */
  lemma LockAgrees(st: Store)
    ensures Decode(LockStore(st)) == Decode(st).(locked := true)
    ensures forall k :: k != LockKey ==> GetItem(LockStore(st), k) == GetItem(st, k)
  {
  }

  /** Unlock removes only the lock key and reloads as unlocked with logo and size unchanged. */
  lemma UnlockAgrees(st: Store)
    ensures Decode(UnlockStore(st)) == Decode(st).(locked := false)
    ensures forall k :: k != LockKey ==> GetItem(UnlockStore(st), k) == GetItem(st, k)
    ensures LockKey !in UnlockStore(st)
  {
  }

  /** Lock then Unlock gives back the store as it was when it held no lock key. */
  lemma LockUnlockRoundTrip(st: Store)
    requires LockKey !in st
    ensures UnlockStore(LockStore(st)) == st
  {
    var back := UnlockStore(LockStore(st));
    assert back.Keys == st.Keys;
    forall k | k in st ensures back[k] == st[k] {
      assert k != LockKey;
    }
  }

  /**
   * Reset removes exactly the three logo keys, keeps every other entry, and reloads as the
   * defaults: the built-in wordmark at size 32, unlocked.
   */
  lemma ResetAgrees(st: Store)
    ensures Decode(ResetStore(st)) == Defaults
    ensures DisplayLogo(Decode(ResetStore(st)).logo) == ""
    ensures ResetStore(st).Keys == st.Keys - {LockKey, LogoKey, SizeKey}
    ensures forall k :: k in ResetStore(st) ==> ResetStore(st)[k] == st[k]
  {
  }

  /** The header component: its three state fields and the key-value store they mirror. */
  class Header {
    var customLogo: Option<string>
    var logoSize: Number
    var isLocked: bool
    var store: Store

    /**
     * The fields are what loading the store would give. Mounting and a reset establish this;
     * a handler whose store write goes through keeps it; a failed read or a refused write
     * can break it.
     */
    ghost predicate InSync()
      reads this
    {
      Prefs(customLogo, logoSize, isLocked) == Decode(store)
    }

    /** Mounting: the fields start at their defaults, then the mount effect reads the store. */
    constructor Mount(saved: Store)
      ensures InSync() && store == saved
      ensures Prefs(customLogo, logoSize, isLocked) == Decode(saved)
    {
      customLogo := None;
      logoSize := Int(DefaultSize);
      isLocked := false;
      store := saved;
      var savedLogo := GetItem(saved, LogoKey);
      var savedSize := GetItem(saved, SizeKey);
      var savedLock := GetItem(saved, LockKey);
      if Truthy(savedLogo) {
        customLogo := savedLogo;
      }
      if Truthy(savedSize) {
        logoSize := ParseInt(savedSize.value);
      }
      if savedLock == Some("true") {
        isLocked := true;
      }
    }

    /**
     * The upload: the file input's change handler together with the reader's `onloadend`,
     * which runs later and so may land whether or not the header has been locked meanwhile.
     * `written` says whether `setItem` stored the value or threw (a full store); the field is
     * set before the write either way.
     */
    method HandleLogoUpload(upload: Upload, written: bool)
      modifies this
      ensures upload.NoFile? ==> customLogo == old(customLogo) && store == old(store)
      ensures upload.Loaded? ==> customLogo == Some(upload.url)
      ensures upload.Loaded? ==> store == if written then SaveLogo(old(store), upload.url) else old(store)
      ensures upload.ReadFailed? ==> customLogo == None
      ensures upload.ReadFailed? ==> store == if written then SaveNullLogo(old(store)) else old(store)
      ensures logoSize == old(logoSize) && isLocked == old(isLocked)
      ensures old(InSync()) && (upload.NoFile? || (upload.Loaded? && written)) ==> InSync()
      ensures upload.ReadFailed? && written ==> !InSync()
      ensures old(InSync()) && !upload.NoFile? && !written ==> (InSync() <==> customLogo == old(customLogo))
    {
      if !upload.NoFile? {
        var result := if upload.Loaded? then Some(upload.url) else None;
        customLogo := result;
        if written {
          store := if upload.Loaded? then SaveLogo(store, upload.url) else SaveNullLogo(store);
        }
        if upload.Loaded? {
          UploadAgrees(old(store), upload.url);
        } else {
          FailedReadDiverges(old(store));
        }
      }
    }

    /**
     * The size slider's change handler, offered only while unlocked with a logo. The slider's
     * value string is the decimal numeral of its position, which lies in 20..60. `written`
     * says whether `setItem` stored the size or threw; the field is set before the write.
     */
    method HandleSizeChange(position: int, written: bool)
      requires !isLocked && customLogo.Some?
      requires SliderMin <= position <= SliderMax
      modifies this
      ensures logoSize == Int(position)
      ensures store == if written then SaveSize(old(store), Int(position)) else old(store)
      ensures customLogo == old(customLogo) && isLocked == old(isLocked)
      ensures old(InSync()) && written ==> InSync()
      ensures old(InSync()) && !written ==> (InSync() <==> old(logoSize) == Int(position))
    {
      var value := Decimal(position);
      var size := ParseInt(value);
      SliderValueParses(position);
      assert size == Int(position);
      logoSize := size;
      if written {
        store := SaveSize(store, size);
        SizeAgrees(old(store), size);
      } else {
        assert Prefs(customLogo, logoSize, isLocked) == Prefs(old(customLogo), old(logoSize), old(isLocked)).(size := size);
      }
    }

    /**
     * The Lock button, offered only while unlocked with a logo. The store is written first, so
     * when `setItem` throws the handler stops before the field changes.
     */
    method HandleLock(written: bool)
      requires !isLocked && customLogo.Some?
      modifies this
      ensures isLocked == written
      ensures store == if written then LockStore(old(store)) else old(store)
      ensures customLogo == old(customLogo) && logoSize == old(logoSize)
      ensures old(InSync()) ==> InSync()
    {
      if written {
        store := LockStore(store);
        isLocked := true;
        LockAgrees(old(store));
      }
    }

    /** The "Change Logo" button, offered only while locked. */
    method HandleUnlock()
      requires isLocked
      modifies this
      ensures !isLocked && store == UnlockStore(old(store))
      ensures customLogo == old(customLogo) && logoSize == old(logoSize)
      ensures old(InSync()) ==> InSync()
    {
      store := UnlockStore(store);
      isLocked := false;
      UnlockAgrees(old(store));
    }

    /** The reset button, offered only while unlocked with a logo: it brings the two back in step. */
    method HandleReset()
      requires !isLocked && customLogo.Some?
      modifies this
      ensures InSync()
      ensures store == ResetStore(old(store))
      ensures Prefs(customLogo, logoSize, isLocked) == Defaults
    {
      store := store - {LockKey};
      store := store - {LogoKey};
      store := store - {SizeKey};
      customLogo := None;
      logoSize := Int(DefaultSize);
      isLocked := false;
      ResetAgrees(old(store));
    }
  }
}
