/** One private file as the secure filesystem presents it.

    Every publication gives the entry an identity that no earlier entry had, a read reports the
    identity with the bytes, and a commit replaces the entry only while its identity is the
    expected one. Expecting no identity means expecting no file. */
module PrivateFile {
  import opened Common

  type Identity = nat

  datatype Entry = Entry(identity: Identity, bytes: Bytes)

  /** `unused` is above every identity used so far. */
  datatype File = File(entry: Option<Entry>, unused: Identity) {
    predicate Valid() {
      entry.Some? ==> entry.value.identity < unused
    }

    function Current(): (id: Option<Identity>) {
      if entry.Some? then Some(entry.value.identity) else None
    }

    /** Any writer puts new bytes in place, under a new identity. */
    function Published(bytes: Bytes): (f: File) {
      File(Some(Entry(unused, bytes)), unused + 1)
    }

    function Removed(): (f: File) {
      this.(entry := None)
    }
  }
}
