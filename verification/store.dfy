/** The shared content slot: one key of the browser's local key-value store
    holding the serialised document. The store itself is a map from keys to
    strings; JSON serialisation and parsing are supplied by the caller as
    functions, parsing being partial (`None` when `JSON.parse` throws). */
module Store {
  import opened Wrappers
  import opened Types
  import Content

  /** The one key under which the document is stored. */
  const ContentKey: string := "mansaj-content"

  /** A browser-local key-value store. */
  type Storage = map<string, string>

  /** `getItem`: the stored string, or `None` when the key is absent. */
  function GetItem(st: Storage, key: string): (r: Option<string>)
    ensures r.Some? <==> key in st
    ensures r.Some? ==> r.value == st[key]
  {
    if key in st then Some(st[key]) else None
  }

  /** `setItem`: the key now holds `value`; every other key is untouched. */
  function SetItem(st: Storage, key: string, value: string): (r: Storage)
    ensures GetItem(r, key) == Some(value)
    ensures forall k :: k != key ==> GetItem(r, k) == GetItem(st, k)
  {
    st[key := value]
  }

  /** Read the stored document, falling back to `fallback` when nothing usable
      is stored: the value is absent, is the empty string (which JavaScript
      treats as false), or does not parse. Never fails. */
  function LoadOr(stored: Option<string>, parse: string -> Option<SiteContent>,
                  fallback: SiteContent): (c: SiteContent)
    ensures (stored.None? || stored == Some("")) ==> c == fallback
    ensures stored.Some? && stored.value != "" && parse(stored.value).None? ==> c == fallback
    ensures stored.Some? && stored.value != "" && parse(stored.value).Some? ==>
              c == parse(stored.value).value
    ensures c == fallback || (stored.Some? && parse(stored.value) == Some(c))
  {
    match stored
    case None => fallback
    case Some(s) =>
      if s == "" then fallback
      else parse(s).GetOr(fallback)
  }

  /** The admin dashboard's initial working copy: the stored document, or the
      built-in default when nothing usable is stored. */
  function AdminLoad(st: Storage, parse: string -> Option<SiteContent>): (c: SiteContent)
    ensures ContentKey !in st ==> c == Content.InitialContent()
    ensures ContentKey in st && st[ContentKey] != "" && parse(st[ContentKey]).Some? ==>
              c == parse(st[ContentKey]).value
    ensures ContentKey in st && (st[ContentKey] == "" || parse(st[ContentKey]).None?) ==>
              c == Content.InitialContent()
    ensures c == Content.InitialContent()
            || (ContentKey in st && parse(st[ContentKey]) == Some(c))
  {
    LoadOr(GetItem(st, ContentKey), parse, Content.InitialContent())
  }

  /** The public page's reaction to a storage notification (and its first read
      at mount): adopt the stored document when there is a usable one, and
      otherwise keep showing `current`. A parse failure is caught and logged. */
  function PublicReload(current: SiteContent, st: Storage,
                        parse: string -> Option<SiteContent>): (c: SiteContent)
    ensures ContentKey !in st ==> c == current
    ensures ContentKey in st && st[ContentKey] != "" && parse(st[ContentKey]).Some? ==>
              c == parse(st[ContentKey]).value
    ensures ContentKey in st && (st[ContentKey] == "" || parse(st[ContentKey]).None?) ==>
              c == current
    ensures c == current || (ContentKey in st && parse(st[ContentKey]) == Some(c))
  {
    LoadOr(GetItem(st, ContentKey), parse, current)
  }

  /** The public page starts from the default document and immediately
      reloads from the store. */
  function PublicMount(st: Storage, parse: string -> Option<SiteContent>): SiteContent {
    PublicReload(Content.InitialContent(), st, parse)
  }

  /** The admin's save: the working copy, serialised, replaces the stored one. */
  function Save(st: Storage, c: SiteContent, stringify: SiteContent -> string): (r: Storage)
    ensures ContentKey in r && r[ContentKey] == stringify(c)
    ensures forall k :: k != ContentKey ==> GetItem(r, k) == GetItem(st, k)
  {
    SetItem(st, ContentKey, stringify(c))
  }

  /** Both pages read the same document at start-up: the public page's first
      reload over the default gives exactly the admin page's initial copy. */
  lemma MountAgreesWithAdminLoad(st: Storage, parse: string -> Option<SiteContent>)
    ensures PublicMount(st, parse) == AdminLoad(st, parse)
  {
  }

  /** Round trip: once a document is saved, the admin page loads it back and
      every open public page switches to it, whatever it showed before —
      provided parsing undoes serialisation for that document, and the
      serialised text is not empty (JSON text of an object never is). */
  lemma SaveThenLoad(st: Storage, d: SiteContent, current: SiteContent,
                     parse: string -> Option<SiteContent>, stringify: SiteContent -> string)
    requires parse(stringify(d)) == Some(d)
    requires stringify(d) != ""
    ensures AdminLoad(Save(st, d, stringify), parse) == d
    ensures PublicReload(current, Save(st, d, stringify), parse) == d
  {
  }

  /** Last write wins: after two saves a reader sees only the second document. */
  lemma LastSaveWins(st: Storage, d1: SiteContent, d2: SiteContent, current: SiteContent,
                     parse: string -> Option<SiteContent>, stringify: SiteContent -> string)
    requires parse(stringify(d2)) == Some(d2)
    requires stringify(d2) != ""
    ensures PublicReload(current, Save(Save(st, d1, stringify), d2, stringify), parse) == d2
  {
  }

  /** Fallback totality: whatever unusable text is stored — empty, or text the
      parser rejects — the admin page starts from the default document and the
      public page keeps what it shows. */
  lemma UnusableStoredValueFallsBack(st: Storage, current: SiteContent,
                                     parse: string -> Option<SiteContent>)
    requires ContentKey in st
    requires st[ContentKey] == "" || parse(st[ContentKey]).None?
    ensures AdminLoad(st, parse) == Content.InitialContent()
    ensures PublicReload(current, st, parse) == current
  {
  }
}
