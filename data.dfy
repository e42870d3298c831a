/** The data-synchronisation layer of client/src/contexts/DataContext.tsx: six
    collections held in memory, loaded from the remote store or, if any remote
    read throws, from the local store; empty collections seeded with defaults;
    and add/update/delete operations that change the in-memory collection and
    persist it whole, remotely or, if that write throws, locally. Generated ids
    (`Date.now()`) and timestamps (`new Date().toISOString()`) are parameters. */
module Data {
  import opened Wrappers
  import opened Schema
  import opened Storage
  import Seqs

  /** The six collections at one moment. */
  datatype Snapshot = Snapshot(
    products: seq<Product>, categories: seq<Category>, colors: seq<Color>,
    pricingTables: seq<PricingTable>, promotions: seq<Promotion>, announcements: seq<Announcement>)

  const LoadError: string := "Erro ao carregar dados. Verifique sua conexão."

  const CollectionPaths: set<string> :=
    {ProductsPath, CategoriesPath, ColorsPath, PricingTablesPath, PromotionsPath, AnnouncementsPath}

  const CollectionKeys: set<string> :=
    {ProductsKey, CategoriesKey, ColorsKey, PricingTablesKey, PromotionsKey, AnnouncementsKey}

  // ----- Reading a collection out of a document (`|| []`) -----

  function ProductsOf(d: Option<Doc>): seq<Product> {
    if d.Some? && d.value.ProductsDoc? then d.value.products else []
  }
  function CategoriesOf(d: Option<Doc>): seq<Category> {
    if d.Some? && d.value.CategoriesDoc? then d.value.categories else []
  }
  function ColorsOf(d: Option<Doc>): seq<Color> {
    if d.Some? && d.value.ColorsDoc? then d.value.colors else []
  }
  function PricingTablesOf(d: Option<Doc>): seq<PricingTable> {
    if d.Some? && d.value.PricingTablesDoc? then d.value.pricingTables else []
  }
  function PromotionsOf(d: Option<Doc>): seq<Promotion> {
    if d.Some? && d.value.PromotionsDoc? then d.value.promotions else []
  }
  function AnnouncementsOf(d: Option<Doc>): seq<Announcement> {
    if d.Some? && d.value.AnnouncementsDoc? then d.value.announcements else []
  }

  /** The six collections as the remote reads return them. */
  function RemoteSnapshot(remote: map<string, Blob>): Snapshot {
    Snapshot(
      ProductsOf(ReadRemote(remote, ProductsPath)),
      CategoriesOf(ReadRemote(remote, CategoriesPath)),
      ColorsOf(ReadRemote(remote, ColorsPath)),
      PricingTablesOf(ReadRemote(remote, PricingTablesPath)),
      PromotionsOf(ReadRemote(remote, PromotionsPath)),
      AnnouncementsOf(ReadRemote(remote, AnnouncementsPath)))
  }

  predicate LocalReadable(local: map<string, Blob>) {
    forall key :: key in CollectionKeys ==> LocalParses(local, key)
  }

  /** The six collections as the local fallback holds them (a missing key is empty). */
  function LocalSnapshot(local: map<string, Blob>): Snapshot
    requires LocalReadable(local)
  {
    Snapshot(
      ProductsOf(ReadLocal(local, ProductsKey)),
      CategoriesOf(ReadLocal(local, CategoriesKey)),
      ColorsOf(ReadLocal(local, ColorsKey)),
      PricingTablesOf(ReadLocal(local, PricingTablesKey)),
      PromotionsOf(ReadLocal(local, PromotionsKey)),
      AnnouncementsOf(ReadLocal(local, AnnouncementsKey)))
  }

  /** What loading yields: the remote collections when none of the six remote
      reads throws; otherwise all six local ones; none when a local key does
      not parse (the load then fails). */
  function Loaded(t: StoreState, readFailing: set<string>): Option<Snapshot> {
    if CollectionPaths !! readFailing then Some(RemoteSnapshot(t.remote))
    else if LocalReadable(t.local) then Some(LocalSnapshot(t.local))
    else None
  }

  /** One remote read that throws makes every collection come from the local
      store, even those whose remote read succeeded before it. */
  lemma AnyRemoteFailureReadsAllLocal(t: StoreState, readFailing: set<string>, path: string)
    requires path in CollectionPaths && path in readFailing
    requires LocalReadable(t.local)
    ensures Loaded(t, readFailing) == Some(LocalSnapshot(t.local))
    ensures Loaded(t, readFailing).value.products == ProductsOf(ReadLocal(t.local, ProductsKey))
  {
    assert path in CollectionPaths * readFailing;
  }

  /** When no remote read throws, a missing or unparsable remote file loads as
      an empty collection, and the local store is not consulted. */
  lemma RemoteLoadIgnoresLocal(t: StoreState, u: StoreState, readFailing: set<string>)
    requires CollectionPaths !! readFailing
    requires t.remote == u.remote
    ensures Loaded(t, readFailing) == Loaded(u, readFailing)
    ensures ProductsPath !in t.remote ==> Loaded(t, readFailing).value.products == []
  {
  }

  /** The storage key that backs each collection's remote path. */
  function KeyOf(path: string): string
    requires path in CollectionPaths
  {
    if path == ProductsPath then ProductsKey
    else if path == CategoriesPath then CategoriesKey
    else if path == ColorsPath then ColorsKey
    else if path == PricingTablesPath then PricingTablesKey
    else if path == PromotionsPath then PromotionsKey
    else AnnouncementsKey
  }

  /** The document a collection of `s` is persisted as. */
  function DocOf(s: Snapshot, path: string): Doc
    requires path in CollectionPaths
  {
    if path == ProductsPath then ProductsDoc(s.products)
    else if path == CategoriesPath then CategoriesDoc(s.categories)
    else if path == ColorsPath then ColorsDoc(s.colors)
    else if path == PricingTablesPath then PricingTablesDoc(s.pricingTables)
    else if path == PromotionsPath then PromotionsDoc(s.promotions)
    else AnnouncementsDoc(s.announcements)
  }

  /** A collection written back is what the next load returns for it: from
      the remote store when the write went there and no read throws, and from
      the local store when the write fell back to it and a read throws. */
  lemma WriteLoadsBack(t: StoreState, s: Snapshot, path: string, fails: bool, readFailing: set<string>)
    requires path in CollectionPaths
    requires fails <==> !(CollectionPaths !! readFailing)
    requires fails ==> LocalReadable(t.local)
    ensures var u := Persisted(t, path, KeyOf(path), DocOf(s, path), fails);
            Loaded(u, readFailing).Some? && DocOf(Loaded(u, readFailing).value, path) == DocOf(s, path)
  {
    var u := Persisted(t, path, KeyOf(path), DocOf(s, path), fails);
    if fails {
      forall key | key in CollectionKeys ensures LocalParses(u.local, key) {
        assert LocalParses(t.local, key);
      }
    }
  }

  /** A write that fell back to the local store is invisible to a load whose
      remote reads all succeed: the load returns what it returned before. */
  lemma LocalWriteShadowedByRemote(t: StoreState, path: string, key: string, doc: Doc, readFailing: set<string>)
    requires CollectionPaths !! readFailing
    ensures Loaded(Persisted(t, path, key, doc, true), readFailing) == Loaded(t, readFailing)
  {
  }

  // ----- Default data -----

  function DefaultCategories(now: string): seq<Category> {
    [ Category("cat-1", "Beliches", "fas fa-bed", 0, now),
      Category("cat-2", "Camas", "fas fa-bed", 0, now),
      Category("cat-3", "Banquetas", "fas fa-chair", 2, now),
      Category("cat-4", "Cadeiras", "fas fa-chair", 0, now),
      Category("cat-5", "Mesas", "fas fa-table", 0, now) ]
  }

  function DefaultColors(now: string): seq<Color> {
    [ Color("color-1", "Madeira Natural", "#D2691E", now),
      Color("color-2", "Madeira Escura", "#654321", now),
      Color("color-3", "Madeira Clara", "#F4A460", now) ]
  }

  function DefaultPricingTables(now: string): seq<PricingTable> {
    [ PricingTable("pricing-1", "À Vista", "Preço base", 1.0, Loja, true, now),
      PricingTable("pricing-2", "30 dias", "Preço base + 2%", 1.02, Loja, true, now),
      PricingTable("pricing-3", "30/60", "Preço base + 4%", 1.04, Loja, true, now),
      PricingTable("pricing-4", "30/60/90", "Preço base + 6%", 1.06, Loja, true, now),
      PricingTable("pricing-5", "30/60/90/120", "Preço base + 8%", 1.08, Loja, true, now),
      PricingTable("pricing-6", "Especial Restaurante", "Preço especial " + "para restaurantes", 1.0, Restaurante, true, now) ]
  }

  // Long literals are written in pieces: the verifier's cost for a literal
  // grows with the square of its length.
  const PhotoHost: string := "https://" + "images.unsplash.com/"
  const PhotoQuery: string := "?ixlib=rb-4.0.3" + "&auto=format" + "&fit=crop" + "&w=600&h=400"
  const Photo1: string := PhotoHost + "photo-" + "1586023492125-" + "27b2c045efd7" + PhotoQuery
  const Photo2: string := PhotoHost + "photo-" + "1581539250439-" + "c96689b516dd" + PhotoQuery
  const Photo3: string := PhotoHost + "photo-" + "1549497538-" + "303791108f95" + PhotoQuery

  function DefaultProducts(now: string): seq<Product> {
    [ Product("product-1", "Banqueta 50 cm",
              "Banqueta em " + "madeira maciça " + "com design " + "moderno e " + "resistente. " +
              "Ideal para " + "restaurantes, " + "bares e " + "estabelecimentos " + "comerciais.",
              47.00, "cat-3", [Photo1, Photo2, Photo3], ["color-1", "color-2", "color-3"], true, now, now),
      Product("product-2", "Banqueta 70 cm",
              "Banqueta alta " + "em madeira " + "maciça, " + "perfeita para " + "balcões e " + "bancadas altas.",
              56.00, "cat-3", [Photo3, Photo2], ["color-1", "color-2"], true, now, now) ]
  }

  /** Number of tables for a user type. */
  function TablesFor(tables: seq<PricingTable>, userType: UserType): nat
    decreases |tables|
  {
    if tables == [] then 0
    else (if tables[0].userType == userType then 1 else 0) + TablesFor(tables[1..], userType)
  }

  /** The seeded defaults: five categories cat-1..cat-5, three colours, six
      active pricing tables (five for stores, one for restaurants), and two
      active products in category cat-3 whose colours are all seeded colours. */
  lemma DefaultsShape(now: string)
    ensures |DefaultCategories(now)| == 5
    ensures forall i :: 0 <= i < 5 ==> DefaultCategories(now)[i].id == "cat-" + [('1' as int + i) as char]
    ensures |DefaultColors(now)| == 3
    ensures |DefaultPricingTables(now)| == 6
    ensures TablesFor(DefaultPricingTables(now), Loja) == 5 && TablesFor(DefaultPricingTables(now), Restaurante) == 1
    ensures forall t :: t in DefaultPricingTables(now) ==> t.isActive
    ensures |DefaultProducts(now)| == 2
    ensures forall p :: p in DefaultProducts(now) ==> p.categoryId == "cat-3" && p.isActive
    ensures forall p, c :: p in DefaultProducts(now) && c in p.colors ==> exists k :: k in DefaultColors(now) && k.id == c
  {
    var ts := DefaultPricingTables(now);
    assert ts[1..][1..][1..][1..][1..][1..] == [];
    assert TablesFor(ts[5..], Loja) == 0;
    assert TablesFor(ts[4..], Loja) == 1;
    assert TablesFor(ts[3..], Loja) == 2;
    assert TablesFor(ts[2..], Loja) == 3;
    assert TablesFor(ts[1..], Loja) == 4;
    assert TablesFor(ts[5..], Restaurante) == 1;
    assert TablesFor(ts[4..], Restaurante) == 1;
    assert TablesFor(ts[3..], Restaurante) == 1;
    assert TablesFor(ts[2..], Restaurante) == 1;
    assert TablesFor(ts[1..], Restaurante) == 1;
    var cs := DefaultColors(now);
    assert cs[0].id == "color-1" && cs[1].id == "color-2" && cs[2].id == "color-3";
  }

  /** `initializeDefaultData`'s effect on the collections: each of categories,
      colours, pricing tables and products that is empty is replaced by its
      defaults; promotions and announcements are never seeded. */
  function Seeded(s: Snapshot, now: string): Snapshot {
    SeedOnto(s, s, now)
  }

  /** The collections `s` once the defaults are set for every collection that
      is empty in `existing`. */
  function SeedOnto(s: Snapshot, existing: Snapshot, now: string): Snapshot {
    s.(categories := if |existing.categories| == 0 then DefaultCategories(now) else s.categories,
       colors := if |existing.colors| == 0 then DefaultColors(now) else s.colors,
       pricingTables := if |existing.pricingTables| == 0 then DefaultPricingTables(now) else s.pricingTables,
       products := if |existing.products| == 0 then DefaultProducts(now) else s.products)
  }

  /** `initializeDefaultData`'s effect on the stores: each seeded collection is
      written, in the order categories, colours, pricing tables, products, to the
      remote file, or to the local key when that write throws. */
  function SeedStores(t: StoreState, s: Snapshot, now: string, writeFailing: set<string>): StoreState {
    SeedProducts(SeedPricingTables(SeedColors(SeedCategories(t, s, now, writeFailing), s, now, writeFailing), s, now, writeFailing), s, now, writeFailing)
  }

  function SeedCategories(t: StoreState, s: Snapshot, now: string, writeFailing: set<string>): StoreState {
    if |s.categories| == 0 then Persisted(t, CategoriesPath, CategoriesKey, CategoriesDoc(DefaultCategories(now)), CategoriesPath in writeFailing) else t
  }
  function SeedColors(t: StoreState, s: Snapshot, now: string, writeFailing: set<string>): StoreState {
    if |s.colors| == 0 then Persisted(t, ColorsPath, ColorsKey, ColorsDoc(DefaultColors(now)), ColorsPath in writeFailing) else t
  }
  function SeedPricingTables(t: StoreState, s: Snapshot, now: string, writeFailing: set<string>): StoreState {
    if |s.pricingTables| == 0 then Persisted(t, PricingTablesPath, PricingTablesKey, PricingTablesDoc(DefaultPricingTables(now)), PricingTablesPath in writeFailing) else t
  }
  function SeedProducts(t: StoreState, s: Snapshot, now: string, writeFailing: set<string>): StoreState {
    if |s.products| == 0 then Persisted(t, ProductsPath, ProductsKey, ProductsDoc(DefaultProducts(now)), ProductsPath in writeFailing) else t
  }

  /** Seeding only fills what is empty: a non-empty collection is kept, and
      after seeding none of the four seeded collections is empty. */
  lemma SeededFillsOnlyEmpty(s: Snapshot, now: string)
    ensures var r := Seeded(s, now);
            && r.promotions == s.promotions && r.announcements == s.announcements
            && (|s.products| > 0 ==> r.products == s.products)
            && (|s.categories| > 0 ==> r.categories == s.categories)
            && (|s.colors| > 0 ==> r.colors == s.colors)
            && (|s.pricingTables| > 0 ==> r.pricingTables == s.pricingTables)
            && |r.products| > 0 && |r.categories| > 0 && |r.colors| > 0 && |r.pricingTables| > 0
  {
  }

  /** Seeding is idempotent: a second seeding, at any time, changes neither the
      collections nor the stores. */
  lemma SeedingIdempotent(s: Snapshot, now: string, later: string, t: StoreState, writeFailing: set<string>)
    ensures Seeded(Seeded(s, now), later) == Seeded(s, now)
    ensures SeedStores(t, Seeded(s, now), later, writeFailing) == t
  {
    SeededFillsOnlyEmpty(s, now);
  }

  /** Seeding with nothing empty writes nothing. */
  lemma SeedingNothingEmptyWritesNothing(s: Snapshot, now: string, t: StoreState, writeFailing: set<string>)
    requires |s.products| > 0 && |s.categories| > 0 && |s.colors| > 0 && |s.pricingTables| > 0
    ensures SeedStores(t, s, now, writeFailing) == t && Seeded(s, now) == s
  {
  }

  // ----- Generic collection edits -----

  /** `xs.filter(x => x.id !== id)` */
  function DeleteById<T>(xs: seq<T>, idOf: T -> string, id: string): seq<T> {
    Seqs.Filter(xs, (x: T) => idOf(x) != id)
  }

  /** `xs.map(x => x.id === id ? merge(x) : x)` */
  function UpdateById<T>(xs: seq<T>, idOf: T -> string, id: string, merge: T -> T): seq<T> {
    Seqs.UpdateWhere(xs, (x: T) => idOf(x) == id, merge)
  }

  /** Deleting by id leaves no record with that id, keeps every other record
      in its original order, and leaves the collection unchanged when no
      record has the id. */
  lemma {:induction false} DeleteByIdRemovesOnly<T>(xs: seq<T>, idOf: T -> string, id: string)
    ensures var r := DeleteById(xs, idOf, id);
            && (forall i :: 0 <= i < |r| ==> idOf(r[i]) != id)
            && (forall i :: 0 <= i < |xs| && idOf(xs[i]) != id ==> xs[i] in r)
            && Seqs.IsSubsequence(r, xs)
            && ((forall i :: 0 <= i < |xs| ==> idOf(xs[i]) != id) ==> r == xs)
  {
    Seqs.FilterIsSubsequence(xs, (x: T) => idOf(x) != id);
    if forall i :: 0 <= i < |xs| ==> idOf(xs[i]) != id {
      Seqs.FilterKeepsAll(xs, (x: T) => idOf(x) != id);
    }
  }

  /** A merge that keeps ids keeps the collection's sequence of ids: update
      neither adds, drops, reorders nor renames records. */
  lemma UpdateByIdKeepsIds<T>(xs: seq<T>, idOf: T -> string, id: string, merge: T -> T)
    requires forall x :: idOf(x) == id ==> idOf(merge(x)) == idOf(x)
    ensures var r := UpdateById(xs, idOf, id, merge);
            |r| == |xs| && forall i :: 0 <= i < |xs| ==> idOf(r[i]) == idOf(xs[i])
  {
  }

  // ----- New records (`{...data, id, createdAt}`) -----

  datatype ProductData = ProductData(
    name: string, description: string, basePrice: real, categoryId: string,
    images: seq<string>, colors: seq<string>, isActive: bool)
  datatype CategoryData = CategoryData(name: string, icon: string)
  datatype ColorData = ColorData(name: string, hexValue: string)
  datatype PricingTableData = PricingTableData(
    name: string, description: string, multiplier: real, userType: UserType, isActive: bool)
  datatype PromotionData = PromotionData(
    title: string, description: string, discountPercentage: Option<real>, categoryIds: seq<string>,
    userTypes: seq<UserType>, startDate: string, endDate: string, isActive: bool)
  datatype AnnouncementData = AnnouncementData(
    title: string, content: string, userTypes: seq<UserType>, priority: Priority, isActive: bool)

  function NewProduct(d: ProductData, stamp: string, now: string): Product {
    Product("product-" + stamp, d.name, d.description, d.basePrice, d.categoryId, d.images, d.colors, d.isActive, now, now)
  }
  /** A new category always starts with productCount 0. */
  function NewCategory(d: CategoryData, stamp: string, now: string): Category {
    Category("cat-" + stamp, d.name, d.icon, 0, now)
  }
  function NewColor(d: ColorData, stamp: string, now: string): Color {
    Color("color-" + stamp, d.name, d.hexValue, now)
  }
  function NewPricingTable(d: PricingTableData, stamp: string, now: string): PricingTable {
    PricingTable("pricing-" + stamp, d.name, d.description, d.multiplier, d.userType, d.isActive, now)
  }
  function NewPromotion(d: PromotionData, stamp: string, now: string): Promotion {
    Promotion("promo-" + stamp, d.title, d.description, d.discountPercentage, d.categoryIds, d.userTypes,
              d.startDate, d.endDate, d.isActive, now)
  }
  function NewAnnouncement(d: AnnouncementData, stamp: string, now: string): Announcement {
    Announcement("ann-" + stamp, d.title, d.content, d.userTypes, d.priority, d.isActive, now)
  }

  // ----- Partial records and the spread merge (`{...record, ...patch}`) -----

  /** `Partial<Product>`; an `updatedAt` in the patch would be overwritten. */
  datatype ProductPatch = ProductPatch(
    id: Option<string>, name: Option<string>, description: Option<string>, basePrice: Option<real>,
    categoryId: Option<string>, images: Option<seq<string>>, colors: Option<seq<string>>,
    isActive: Option<bool>, createdAt: Option<string>)
  datatype CategoryPatch = CategoryPatch(
    id: Option<string>, name: Option<string>, icon: Option<string>, productCount: Option<int>,
    createdAt: Option<string>)
  datatype ColorPatch = ColorPatch(
    id: Option<string>, name: Option<string>, hexValue: Option<string>, createdAt: Option<string>)
  datatype PricingTablePatch = PricingTablePatch(
    id: Option<string>, name: Option<string>, description: Option<string>, multiplier: Option<real>,
    userType: Option<UserType>, isActive: Option<bool>, createdAt: Option<string>)
  datatype PromotionPatch = PromotionPatch(
    id: Option<string>, title: Option<string>, description: Option<string>,
    discountPercentage: Option<Option<real>>, categoryIds: Option<seq<string>>,
    userTypes: Option<seq<UserType>>, startDate: Option<string>, endDate: Option<string>,
    isActive: Option<bool>, createdAt: Option<string>)
  datatype AnnouncementPatch = AnnouncementPatch(
    id: Option<string>, title: Option<string>, content: Option<string>, userTypes: Option<seq<UserType>>,
    priority: Option<Priority>, isActive: Option<bool>, createdAt: Option<string>)

  /** `{ ...p, ...d, updatedAt: now }` */
  function MergeProduct(p: Product, d: ProductPatch, now: string): Product {
    Product(d.id.GetOr(p.id), d.name.GetOr(p.name), d.description.GetOr(p.description),
            d.basePrice.GetOr(p.basePrice), d.categoryId.GetOr(p.categoryId), d.images.GetOr(p.images),
            d.colors.GetOr(p.colors), d.isActive.GetOr(p.isActive), d.createdAt.GetOr(p.createdAt), now)
  }
  function MergeCategory(c: Category, d: CategoryPatch): Category {
    Category(d.id.GetOr(c.id), d.name.GetOr(c.name), d.icon.GetOr(c.icon),
             d.productCount.GetOr(c.productCount), d.createdAt.GetOr(c.createdAt))
  }
  function MergeColor(c: Color, d: ColorPatch): Color {
    Color(d.id.GetOr(c.id), d.name.GetOr(c.name), d.hexValue.GetOr(c.hexValue), d.createdAt.GetOr(c.createdAt))
  }
  function MergePricingTable(t: PricingTable, d: PricingTablePatch): PricingTable {
    PricingTable(d.id.GetOr(t.id), d.name.GetOr(t.name), d.description.GetOr(t.description),
                 d.multiplier.GetOr(t.multiplier), d.userType.GetOr(t.userType), d.isActive.GetOr(t.isActive),
                 d.createdAt.GetOr(t.createdAt))
  }
  function MergePromotion(p: Promotion, d: PromotionPatch): Promotion {
    Promotion(d.id.GetOr(p.id), d.title.GetOr(p.title), d.description.GetOr(p.description),
              d.discountPercentage.GetOr(p.discountPercentage), d.categoryIds.GetOr(p.categoryIds),
              d.userTypes.GetOr(p.userTypes), d.startDate.GetOr(p.startDate), d.endDate.GetOr(p.endDate),
              d.isActive.GetOr(p.isActive), d.createdAt.GetOr(p.createdAt))
  }
  function MergeAnnouncement(a: Announcement, d: AnnouncementPatch): Announcement {
    Announcement(d.id.GetOr(a.id), d.title.GetOr(a.title), d.content.GetOr(a.content),
                 d.userTypes.GetOr(a.userTypes), d.priority.GetOr(a.priority), d.isActive.GetOr(a.isActive),
                 d.createdAt.GetOr(a.createdAt))
  }

  /** The spread merge: a field the patch carries wins, every other field is
      the record's own; merging the same patch twice is merging it once. */
  lemma MergeProductFields(p: Product, d: ProductPatch, now: string, later: string)
    ensures var r := MergeProduct(p, d, now);
            && (d.id.None? ==> r.id == p.id) && (d.id.Some? ==> r.id == d.id.value)
            && (d.name.None? ==> r.name == p.name) && (d.name.Some? ==> r.name == d.name.value)
            && (d.description.None? ==> r.description == p.description) && (d.description.Some? ==> r.description == d.description.value)
            && (d.basePrice.None? ==> r.basePrice == p.basePrice) && (d.basePrice.Some? ==> r.basePrice == d.basePrice.value)
            && (d.categoryId.None? ==> r.categoryId == p.categoryId) && (d.categoryId.Some? ==> r.categoryId == d.categoryId.value)
            && (d.images.None? ==> r.images == p.images) && (d.images.Some? ==> r.images == d.images.value)
            && (d.colors.None? ==> r.colors == p.colors) && (d.colors.Some? ==> r.colors == d.colors.value)
            && (d.isActive.None? ==> r.isActive == p.isActive) && (d.isActive.Some? ==> r.isActive == d.isActive.value)
            && (d.createdAt.None? ==> r.createdAt == p.createdAt) && (d.createdAt.Some? ==> r.createdAt == d.createdAt.value)
            && r.updatedAt == now
            && MergeProduct(r, d, later) == r.(updatedAt := later)
  {
  }

  /** The spread merges of the other collections: an empty patch changes
      nothing, a patch without an id keeps the record's id, and merging the
      same patch twice is merging it once. */
  lemma MergeOthersFields(c: Category, dc: CategoryPatch, k: Color, dk: ColorPatch, t: PricingTable, dt: PricingTablePatch,
                          p: Promotion, dp: PromotionPatch, a: Announcement, da: AnnouncementPatch)
    ensures MergeCategory(c, CategoryPatch(None, None, None, None, None)) == c
    ensures dc.id.None? ==> MergeCategory(c, dc).id == c.id
    ensures MergeCategory(MergeCategory(c, dc), dc) == MergeCategory(c, dc)
    ensures MergeColor(k, ColorPatch(None, None, None, None)) == k
    ensures dk.id.None? ==> MergeColor(k, dk).id == k.id
    ensures MergeColor(MergeColor(k, dk), dk) == MergeColor(k, dk)
    ensures MergePricingTable(t, PricingTablePatch(None, None, None, None, None, None, None)) == t
    ensures dt.id.None? ==> MergePricingTable(t, dt).id == t.id
    ensures MergePricingTable(MergePricingTable(t, dt), dt) == MergePricingTable(t, dt)
    ensures MergePromotion(p, PromotionPatch(None, None, None, None, None, None, None, None, None, None)) == p
    ensures dp.id.None? ==> MergePromotion(p, dp).id == p.id
    ensures MergePromotion(MergePromotion(p, dp), dp) == MergePromotion(p, dp)
    ensures MergeAnnouncement(a, AnnouncementPatch(None, None, None, None, None, None, None)) == a
    ensures da.id.None? ==> MergeAnnouncement(a, da).id == a.id
    ensures MergeAnnouncement(MergeAnnouncement(a, da), da) == MergeAnnouncement(a, da)
  {
  }

  // ----- Edits of each collection -----

  function UpdateProducts(ps: seq<Product>, id: string, d: ProductPatch, now: string): seq<Product> {
    UpdateById(ps, (p: Product) => p.id, id, (p: Product) => MergeProduct(p, d, now))
  }

  /** updateProduct keeps length and order, merges the patch into exactly the
      products with the id and refreshes their updatedAt; the others are
      untouched. */
  lemma UpdateProductsMerges(ps: seq<Product>, id: string, d: ProductPatch, now: string)
    ensures var r := UpdateProducts(ps, id, d, now);
            && |r| == |ps|
            && (forall i :: 0 <= i < |ps| && ps[i].id == id ==> r[i] == MergeProduct(ps[i], d, now) && r[i].updatedAt == now)
            && (forall i :: 0 <= i < |ps| && ps[i].id != id ==> r[i] == ps[i])
            && (d.id.None? ==> forall i :: 0 <= i < |ps| ==> r[i].id == ps[i].id)
  {
  }

  /** The provider: the six collections, the loading flag and error, and the
      shared stores it persists to. */
  class DataProvider {
    var products: seq<Product>
    var categories: seq<Category>
    var colors: seq<Color>
    var pricingTables: seq<PricingTable>
    var promotions: seq<Promotion>
    var announcements: seq<Announcement>
    var isLoading: bool
    var error: Option<string>
    const stores: Stores

    constructor (stores: Stores)
      ensures this.stores == stores
      ensures Collections() == Snapshot([], [], [], [], [], [])
      ensures isLoading && error == None
    {
      this.stores := stores;
      products, categories, colors := [], [], [];
      pricingTables, promotions, announcements := [], [], [];
      isLoading, error := true, None;
    }

    function Collections(): Snapshot
      reads this
    {
      Snapshot(products, categories, colors, pricingTables, promotions, announcements)
    }

    /** The remote half of `fetchData`: the six reads in order; the first one
        that throws abandons the rest, so the reads yield a snapshot exactly
        when none of the six throws. */
    method ReadRemoteCollections(readFailing: set<string>) returns (r: Option<Snapshot>)
      ensures r.Some? <==> CollectionPaths !! readFailing
      ensures r.Some? ==> r.value == RemoteSnapshot(stores.remote)
    {
      var remote := stores.remote;
      if ProductsPath in readFailing { return None; }
      var productsData := ProductsOf(ReadRemote(remote, ProductsPath));
      if CategoriesPath in readFailing { return None; }
      var categoriesData := CategoriesOf(ReadRemote(remote, CategoriesPath));
      if ColorsPath in readFailing { return None; }
      var colorsData := ColorsOf(ReadRemote(remote, ColorsPath));
      if PricingTablesPath in readFailing { return None; }
      var pricingTablesData := PricingTablesOf(ReadRemote(remote, PricingTablesPath));
      if PromotionsPath in readFailing { return None; }
      var promotionsData := PromotionsOf(ReadRemote(remote, PromotionsPath));
      if AnnouncementsPath in readFailing { return None; }
      var announcementsData := AnnouncementsOf(ReadRemote(remote, AnnouncementsPath));
      return Some(Snapshot(productsData, categoriesData, colorsData, pricingTablesData, promotionsData, announcementsData));
    }

    /** The loading half of `fetchData`, which changes nothing: the remote
        reads, then, if one of them throws, the local fallback; none when a
        local value does not parse. */
    method LoadCollections(readFailing: set<string>) returns (r: Option<Snapshot>)
      ensures r == Loaded(stores.State(), readFailing)
    {
      r := ReadRemoteCollections(readFailing);
      if r.None? {
        if LocalReadable(stores.local) {
          r := Some(LocalSnapshot(stores.local));
        }
      }
    }

    /** `fetchData`: `readFailing` holds the paths whose remote read throws and
        `writeFailing` those whose remote write throws. A local value that does
        not parse ends the load with the error message and the collections as
        they were. */
    method FetchData(readFailing: set<string>, writeFailing: set<string>, now: string)
      modifies this, stores
      ensures !isLoading
      ensures Loaded(old(stores.State()), readFailing).None? ==>
                error == Some(LoadError) && Collections() == old(Collections()) &&
                stores.State() == old(stores.State())
      ensures Loaded(old(stores.State()), readFailing).Some? ==>
                error == None && Collections() == Seeded(Loaded(old(stores.State()), readFailing).value, now) &&
                stores.State() == SeedStores(old(stores.State()), Loaded(old(stores.State()), readFailing).value, now, writeFailing)
    {
      isLoading := true;
      error := None;
      var snap := LoadCollections(readFailing);
      if snap.None? {
        error := Some(LoadError);
        isLoading := false;
        return;
      }
      var data := snap.value;
      products, categories, colors := data.products, data.categories, data.colors;
      pricingTables, promotions, announcements := data.pricingTables, data.promotions, data.announcements;
      assert Collections() == data;
      InitializeDefaultData(data, writeFailing, now);
      isLoading := false;
    }

    /** `addProduct`: appends a new product with a generated id and persists the
        whole collection; `fails` says whether the remote write throws. */
    method AddProduct(d: ProductData, stamp: string, now: string, fails: bool)
      modifies this, stores
      ensures products == old(products) + [NewProduct(d, stamp, now)]
      ensures Collections() == old(Collections()).(products := products)
      ensures stores.State() == Persisted(old(stores.State()), ProductsPath, ProductsKey, ProductsDoc(products), fails)
      ensures isLoading == old(isLoading) && error == old(error)
    {
      products := products + [NewProduct(d, stamp, now)];
      stores.Persist(ProductsPath, ProductsKey, ProductsDoc(products), fails);
    }

    /** `updateProduct`: merges the patch into every product with the id. */
    method UpdateProduct(id: string, d: ProductPatch, now: string, fails: bool)
      modifies this, stores
      ensures products == UpdateById(old(products), (x: Product) => x.id, id, (x: Product) => MergeProduct(x, d, now))
      ensures Collections() == old(Collections()).(products := products)
      ensures stores.State() == Persisted(old(stores.State()), ProductsPath, ProductsKey, ProductsDoc(products), fails)
      ensures isLoading == old(isLoading) && error == old(error)
    {
      products := UpdateById(products, (x: Product) => x.id, id, (x: Product) => MergeProduct(x, d, now));
      stores.Persist(ProductsPath, ProductsKey, ProductsDoc(products), fails);
    }

    /** `deleteProduct`: drops every product with the id. */
    method DeleteProduct(id: string, fails: bool)
      modifies this, stores
      ensures products == DeleteById(old(products), (x: Product) => x.id, id)
      ensures Collections() == old(Collections()).(products := products)
      ensures stores.State() == Persisted(old(stores.State()), ProductsPath, ProductsKey, ProductsDoc(products), fails)
      ensures isLoading == old(isLoading) && error == old(error)
    {
      products := DeleteById(products, (x: Product) => x.id, id);
      stores.Persist(ProductsPath, ProductsKey, ProductsDoc(products), fails);
    }

    /** `addCategory`: appends a new category with a generated id and persists the
        whole collection; `fails` says whether the remote write throws. */
    method AddCategory(d: CategoryData, stamp: string, now: string, fails: bool)
      modifies this, stores
      ensures categories == old(categories) + [NewCategory(d, stamp, now)]
      ensures Collections() == old(Collections()).(categories := categories)
      ensures stores.State() == Persisted(old(stores.State()), CategoriesPath, CategoriesKey, CategoriesDoc(categories), fails)
      ensures isLoading == old(isLoading) && error == old(error)
    {
      categories := categories + [NewCategory(d, stamp, now)];
      stores.Persist(CategoriesPath, CategoriesKey, CategoriesDoc(categories), fails);
    }

    /** `updateCategory`: merges the patch into every category with the id. */
    method UpdateCategory(id: string, d: CategoryPatch, fails: bool)
      modifies this, stores
      ensures categories == UpdateById(old(categories), (x: Category) => x.id, id, (x: Category) => MergeCategory(x, d))
      ensures Collections() == old(Collections()).(categories := categories)
      ensures stores.State() == Persisted(old(stores.State()), CategoriesPath, CategoriesKey, CategoriesDoc(categories), fails)
      ensures isLoading == old(isLoading) && error == old(error)
    {
      categories := UpdateById(categories, (x: Category) => x.id, id, (x: Category) => MergeCategory(x, d));
      stores.Persist(CategoriesPath, CategoriesKey, CategoriesDoc(categories), fails);
    }

    /** `deleteCategory`: drops every category with the id. */
    method DeleteCategory(id: string, fails: bool)
      modifies this, stores
      ensures categories == DeleteById(old(categories), (x: Category) => x.id, id)
      ensures Collections() == old(Collections()).(categories := categories)
      ensures stores.State() == Persisted(old(stores.State()), CategoriesPath, CategoriesKey, CategoriesDoc(categories), fails)
      ensures isLoading == old(isLoading) && error == old(error)
    {
      categories := DeleteById(categories, (x: Category) => x.id, id);
      stores.Persist(CategoriesPath, CategoriesKey, CategoriesDoc(categories), fails);
    }

    /** `addColor`: appends a new color with a generated id and persists the
        whole collection; `fails` says whether the remote write throws. */
    method AddColor(d: ColorData, stamp: string, now: string, fails: bool)
      modifies this, stores
      ensures colors == old(colors) + [NewColor(d, stamp, now)]
      ensures Collections() == old(Collections()).(colors := colors)
      ensures stores.State() == Persisted(old(stores.State()), ColorsPath, ColorsKey, ColorsDoc(colors), fails)
      ensures isLoading == old(isLoading) && error == old(error)
    {
      colors := colors + [NewColor(d, stamp, now)];
      stores.Persist(ColorsPath, ColorsKey, ColorsDoc(colors), fails);
    }

    /** `updateColor`: merges the patch into every color with the id. */
    method UpdateColor(id: string, d: ColorPatch, fails: bool)
      modifies this, stores
      ensures colors == UpdateById(old(colors), (x: Color) => x.id, id, (x: Color) => MergeColor(x, d))
      ensures Collections() == old(Collections()).(colors := colors)
      ensures stores.State() == Persisted(old(stores.State()), ColorsPath, ColorsKey, ColorsDoc(colors), fails)
      ensures isLoading == old(isLoading) && error == old(error)
    {
      colors := UpdateById(colors, (x: Color) => x.id, id, (x: Color) => MergeColor(x, d));
      stores.Persist(ColorsPath, ColorsKey, ColorsDoc(colors), fails);
    }

    /** `deleteColor`: drops every color with the id. */
    method DeleteColor(id: string, fails: bool)
      modifies this, stores
      ensures colors == DeleteById(old(colors), (x: Color) => x.id, id)
      ensures Collections() == old(Collections()).(colors := colors)
      ensures stores.State() == Persisted(old(stores.State()), ColorsPath, ColorsKey, ColorsDoc(colors), fails)
      ensures isLoading == old(isLoading) && error == old(error)
    {
      colors := DeleteById(colors, (x: Color) => x.id, id);
      stores.Persist(ColorsPath, ColorsKey, ColorsDoc(colors), fails);
    }

    /** `addPricingTable`: appends a new pricing table with a generated id and persists the
        whole collection; `fails` says whether the remote write throws. */
    method AddPricingTable(d: PricingTableData, stamp: string, now: string, fails: bool)
      modifies this, stores
      ensures pricingTables == old(pricingTables) + [NewPricingTable(d, stamp, now)]
      ensures Collections() == old(Collections()).(pricingTables := pricingTables)
      ensures stores.State() == Persisted(old(stores.State()), PricingTablesPath, PricingTablesKey, PricingTablesDoc(pricingTables), fails)
      ensures isLoading == old(isLoading) && error == old(error)
    {
      pricingTables := pricingTables + [NewPricingTable(d, stamp, now)];
      stores.Persist(PricingTablesPath, PricingTablesKey, PricingTablesDoc(pricingTables), fails);
    }

    /** `updatePricingTable`: merges the patch into every pricing table with the id. */
    method UpdatePricingTable(id: string, d: PricingTablePatch, fails: bool)
      modifies this, stores
      ensures pricingTables == UpdateById(old(pricingTables), (x: PricingTable) => x.id, id, (x: PricingTable) => MergePricingTable(x, d))
      ensures Collections() == old(Collections()).(pricingTables := pricingTables)
      ensures stores.State() == Persisted(old(stores.State()), PricingTablesPath, PricingTablesKey, PricingTablesDoc(pricingTables), fails)
      ensures isLoading == old(isLoading) && error == old(error)
    {
      pricingTables := UpdateById(pricingTables, (x: PricingTable) => x.id, id, (x: PricingTable) => MergePricingTable(x, d));
      stores.Persist(PricingTablesPath, PricingTablesKey, PricingTablesDoc(pricingTables), fails);
    }

    /** `deletePricingTable`: drops every pricing table with the id. */
    method DeletePricingTable(id: string, fails: bool)
      modifies this, stores
      ensures pricingTables == DeleteById(old(pricingTables), (x: PricingTable) => x.id, id)
      ensures Collections() == old(Collections()).(pricingTables := pricingTables)
      ensures stores.State() == Persisted(old(stores.State()), PricingTablesPath, PricingTablesKey, PricingTablesDoc(pricingTables), fails)
      ensures isLoading == old(isLoading) && error == old(error)
    {
      pricingTables := DeleteById(pricingTables, (x: PricingTable) => x.id, id);
      stores.Persist(PricingTablesPath, PricingTablesKey, PricingTablesDoc(pricingTables), fails);
    }

    /** `addPromotion`: appends a new promotion with a generated id and persists the
        whole collection; `fails` says whether the remote write throws. */
    method AddPromotion(d: PromotionData, stamp: string, now: string, fails: bool)
      modifies this, stores
      ensures promotions == old(promotions) + [NewPromotion(d, stamp, now)]
      ensures Collections() == old(Collections()).(promotions := promotions)
      ensures stores.State() == Persisted(old(stores.State()), PromotionsPath, PromotionsKey, PromotionsDoc(promotions), fails)
      ensures isLoading == old(isLoading) && error == old(error)
    {
      promotions := promotions + [NewPromotion(d, stamp, now)];
      stores.Persist(PromotionsPath, PromotionsKey, PromotionsDoc(promotions), fails);
    }

    /** `updatePromotion`: merges the patch into every promotion with the id. */
    method UpdatePromotion(id: string, d: PromotionPatch, fails: bool)
      modifies this, stores
      ensures promotions == UpdateById(old(promotions), (x: Promotion) => x.id, id, (x: Promotion) => MergePromotion(x, d))
      ensures Collections() == old(Collections()).(promotions := promotions)
      ensures stores.State() == Persisted(old(stores.State()), PromotionsPath, PromotionsKey, PromotionsDoc(promotions), fails)
      ensures isLoading == old(isLoading) && error == old(error)
    {
      promotions := UpdateById(promotions, (x: Promotion) => x.id, id, (x: Promotion) => MergePromotion(x, d));
      stores.Persist(PromotionsPath, PromotionsKey, PromotionsDoc(promotions), fails);
    }

    /** `deletePromotion`: drops every promotion with the id. */
    method DeletePromotion(id: string, fails: bool)
      modifies this, stores
      ensures promotions == DeleteById(old(promotions), (x: Promotion) => x.id, id)
      ensures Collections() == old(Collections()).(promotions := promotions)
      ensures stores.State() == Persisted(old(stores.State()), PromotionsPath, PromotionsKey, PromotionsDoc(promotions), fails)
      ensures isLoading == old(isLoading) && error == old(error)
    {
      promotions := DeleteById(promotions, (x: Promotion) => x.id, id);
      stores.Persist(PromotionsPath, PromotionsKey, PromotionsDoc(promotions), fails);
    }

    /** `addAnnouncement`: appends a new announcement with a generated id and persists the
        whole collection; `fails` says whether the remote write throws. */
    method AddAnnouncement(d: AnnouncementData, stamp: string, now: string, fails: bool)
      modifies this, stores
      ensures announcements == old(announcements) + [NewAnnouncement(d, stamp, now)]
      ensures Collections() == old(Collections()).(announcements := announcements)
      ensures stores.State() == Persisted(old(stores.State()), AnnouncementsPath, AnnouncementsKey, AnnouncementsDoc(announcements), fails)
      ensures isLoading == old(isLoading) && error == old(error)
    {
      announcements := announcements + [NewAnnouncement(d, stamp, now)];
      stores.Persist(AnnouncementsPath, AnnouncementsKey, AnnouncementsDoc(announcements), fails);
    }

    /** `updateAnnouncement`: merges the patch into every announcement with the id. */
    method UpdateAnnouncement(id: string, d: AnnouncementPatch, fails: bool)
      modifies this, stores
      ensures announcements == UpdateById(old(announcements), (x: Announcement) => x.id, id, (x: Announcement) => MergeAnnouncement(x, d))
      ensures Collections() == old(Collections()).(announcements := announcements)
      ensures stores.State() == Persisted(old(stores.State()), AnnouncementsPath, AnnouncementsKey, AnnouncementsDoc(announcements), fails)
      ensures isLoading == old(isLoading) && error == old(error)
    {
      announcements := UpdateById(announcements, (x: Announcement) => x.id, id, (x: Announcement) => MergeAnnouncement(x, d));
      stores.Persist(AnnouncementsPath, AnnouncementsKey, AnnouncementsDoc(announcements), fails);
    }

    /** `deleteAnnouncement`: drops every announcement with the id. */
    method DeleteAnnouncement(id: string, fails: bool)
      modifies this, stores
      ensures announcements == DeleteById(old(announcements), (x: Announcement) => x.id, id)
      ensures Collections() == old(Collections()).(announcements := announcements)
      ensures stores.State() == Persisted(old(stores.State()), AnnouncementsPath, AnnouncementsKey, AnnouncementsDoc(announcements), fails)
      ensures isLoading == old(isLoading) && error == old(error)
    {
      announcements := DeleteById(announcements, (x: Announcement) => x.id, id);
      stores.Persist(AnnouncementsPath, AnnouncementsKey, AnnouncementsDoc(announcements), fails);
    }

    /** `initializeDefaultData(existing...)`: seeds and persists each empty
        collection among categories, colours, pricing tables and products. */
    method InitializeDefaultData(existing: Snapshot, writeFailing: set<string>, now: string)
      modifies this, stores
      ensures Collections() == SeedOnto(old(Collections()), existing, now)
      ensures stores.State() == SeedStores(old(stores.State()), existing, now, writeFailing)
      ensures isLoading == old(isLoading) && error == old(error)
    {
      SeedCategoriesStep(existing, writeFailing, now);
      SeedColorsStep(existing, writeFailing, now);
      SeedPricingTablesStep(existing, writeFailing, now);
      SeedProductsStep(existing, writeFailing, now);
    }

    method SeedCategoriesStep(existing: Snapshot, writeFailing: set<string>, now: string)
      modifies this, stores
      ensures Collections() == old(Collections()).(categories := SeedOnto(old(Collections()), existing, now).categories)
      ensures stores.State() == SeedCategories(old(stores.State()), existing, now, writeFailing)
      ensures isLoading == old(isLoading) && error == old(error)
    {
      if |existing.categories| == 0 {
        categories := DefaultCategories(now);
        stores.Persist(CategoriesPath, CategoriesKey, CategoriesDoc(categories), CategoriesPath in writeFailing);
      }
    }

    method SeedColorsStep(existing: Snapshot, writeFailing: set<string>, now: string)
      modifies this, stores
      ensures Collections() == old(Collections()).(colors := SeedOnto(old(Collections()), existing, now).colors)
      ensures stores.State() == SeedColors(old(stores.State()), existing, now, writeFailing)
      ensures isLoading == old(isLoading) && error == old(error)
    {
      if |existing.colors| == 0 {
        colors := DefaultColors(now);
        stores.Persist(ColorsPath, ColorsKey, ColorsDoc(colors), ColorsPath in writeFailing);
      }
    }

    method SeedPricingTablesStep(existing: Snapshot, writeFailing: set<string>, now: string)
      modifies this, stores
      ensures Collections() == old(Collections()).(pricingTables := SeedOnto(old(Collections()), existing, now).pricingTables)
      ensures stores.State() == SeedPricingTables(old(stores.State()), existing, now, writeFailing)
      ensures isLoading == old(isLoading) && error == old(error)
    {
      if |existing.pricingTables| == 0 {
        pricingTables := DefaultPricingTables(now);
        stores.Persist(PricingTablesPath, PricingTablesKey, PricingTablesDoc(pricingTables), PricingTablesPath in writeFailing);
      }
    }

    method SeedProductsStep(existing: Snapshot, writeFailing: set<string>, now: string)
      modifies this, stores
      ensures Collections() == old(Collections()).(products := SeedOnto(old(Collections()), existing, now).products)
      ensures stores.State() == SeedProducts(old(stores.State()), existing, now, writeFailing)
      ensures isLoading == old(isLoading) && error == old(error)
    {
      if |existing.products| == 0 {
        products := DefaultProducts(now);
        stores.Persist(ProductsPath, ProductsKey, ProductsDoc(products), ProductsPath in writeFailing);
      }
    }
  }
}
