/** The browser objects the pages use: `localStorage` and picked files. */
module Browser {
  import opened Wrappers

  /** A file picked in a file input: `File.name`, `File.size`, `File.type`. */
  datatype FileInfo = FileInfo(name: string, size: nat, fileType: string)

  /** JavaScript truthiness of a nullable string, such as a `getItem` result. */
  predicate Present(s: Option<string>) {
    s.Some? && s.value != ""
  }

  /** The one key the client uses: the active wallet address. */
  const WalletAddressKey: string := "walletAddress"

  class LocalStorage {
    var items: map<string, string>

    constructor ()
      ensures items == map[]
    {
      items := map[];
    }

    /** `getItem(key)`: the stored string, or null. */
    function GetItem(key: string): Option<string>
      reads this
    {
      if key in items then Some(items[key]) else None
    }

    /** `setItem(key, value)`. */
    method SetItem(key: string, value: string)
      modifies this
      ensures items == old(items)[key := value]
    {
      items := items[key := value];
    }

    /** `removeItem(key)`; removing an absent key changes nothing. */
    method RemoveItem(key: string)
      modifies this
      ensures items == old(items) - {key}
    {
      items := items - {key};
    }
  }
}
