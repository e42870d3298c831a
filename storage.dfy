/** The two tiers behind the data layer and the session: the remote document
    store (one JSON file per collection in a repository, reached through
    client/src/lib/github.ts) and the browser's local key-value store. Each is
    a map from a path or key to what is stored there; a remote call that
    throws is an input to the operation that makes it. */
module Storage {
  import opened Schema
  import opened Wrappers

  /** The JSON shapes the storefront writes: one array per collection, and the
      single user of the session. */
  datatype Doc =
    | ProductsDoc(products: seq<Product>)
    | CategoriesDoc(categories: seq<Category>)
    | ColorsDoc(colors: seq<Color>)
    | PricingTablesDoc(pricingTables: seq<PricingTable>)
    | PromotionsDoc(promotions: seq<Promotion>)
    | AnnouncementsDoc(announcements: seq<Announcement>)
    | UsersDoc(users: seq<User>)
    | UserDoc(user: User)

  /** What a path or key holds: text that parses to one of the shapes, or
      text that does not parse. */
  datatype Blob = Parsed(doc: Doc) | Unparsable

  datatype StoreState = StoreState(remote: map<string, Blob>, local: map<string, Blob>)

  // Paths of the remote files (DATA_PATHS).
  const UsersPath: string := "docs/data/users.json"
  const ProductsPath: string := "docs/data/products.json"
  const CategoriesPath: string := "docs/data/categories.json"
  const ColorsPath: string := "docs/data/colors.json"
  const PricingTablesPath: string := "docs/data/pricing-tables.json"
  const PromotionsPath: string := "docs/data/promotions.json"
  const AnnouncementsPath: string := "docs/data/announcements.json"

  // Keys of the local fallback.
  const UsersKey: string := "furniture_store_users"
  const SessionKey: string := "furniture_store_user"
  const ProductsKey: string := "furniture_store_products"
  const CategoriesKey: string := "furniture_store_categories"
  const ColorsKey: string := "furniture_store_colors"
  const PricingTablesKey: string := "furniture_store_pricing_tables"
  const PromotionsKey: string := "furniture_store_promotions"
  const AnnouncementsKey: string := "furniture_store_announcements"

  /** `github.readJsonFile(path)` when it does not throw: the parsed document,
      or none when the file is missing or does not parse. */
  function ReadRemote(remote: map<string, Blob>, path: string): (r: Option<Doc>)
    ensures r.Some? <==> path in remote && remote[path] != Unparsable
    ensures r.Some? ==> r.value == remote[path].doc
  {
    if path in remote && remote[path].Parsed? then Some(remote[path].doc) else None
  }

  /** `JSON.parse(localStorage.getItem(key) || '[]')` does not throw: the key
      is absent or holds parseable text. */
  predicate LocalParses(local: map<string, Blob>, key: string) {
    key !in local || local[key].Parsed?
  }

  /** The parsed local document, or none when the key is absent. */
  function ReadLocal(local: map<string, Blob>, key: string): (r: Option<Doc>)
    requires LocalParses(local, key)
    ensures r.Some? <==> key in local
  {
    if key in local then Some(local[key].doc) else None
  }

  /** The state after persisting `doc`: the remote file is overwritten when the
      remote write succeeds; only when it throws is the local key written. */
  function Persisted(t: StoreState, path: string, key: string, doc: Doc, fails: bool): StoreState {
    if fails then t.(local := t.local[key := Parsed(doc)])
    else t.(remote := t.remote[path := Parsed(doc)])
  }

  /** What a write persists is what a later read of the tier it went to
      returns, and the other tier is untouched. */
  lemma PersistedReadsBack(t: StoreState, path: string, key: string, doc: Doc, fails: bool)
    ensures var u := Persisted(t, path, key, doc, fails);
            && (!fails ==> ReadRemote(u.remote, path) == Some(doc) && u.local == t.local)
            && (fails ==> LocalParses(u.local, key) && ReadLocal(u.local, key) == Some(doc) && u.remote == t.remote)
  {
  }

  /** The browser storage and the remote store, shared by the data layer and
      the authentication service. */
  class Stores {
    var remote: map<string, Blob>
    var local: map<string, Blob>

    constructor (remote: map<string, Blob>, local: map<string, Blob>)
      ensures this.remote == remote && this.local == local
    {
      this.remote := remote;
      this.local := local;
    }

    function State(): StoreState
      reads this
    {
      StoreState(remote, local)
    }

    /** `try { await github.writeJsonFile(path, doc) } catch { localStorage.setItem(key, doc) }`;
        `fails` says whether the remote write throws. */
    method Persist(path: string, key: string, doc: Doc, fails: bool)
      modifies this
      ensures State() == Persisted(old(State()), path, key, doc, fails)
    {
      if !fails {
        remote := remote[path := Parsed(doc)];
      } else {
        local := local[key := Parsed(doc)];
      }
    }
  }
}
