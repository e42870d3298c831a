/** The catalogue view of client/src/pages/StoreDashboard.tsx: which products,
    promotions and announcements a signed-in user sees, and the category and
    search filters the page holds. */
module StoreDashboard {
  import opened Wrappers
  import opened Schema
  import Seqs

  // ----- Case-insensitive search -----

  /** `toLowerCase` on one character, for ASCII and Latin-1 letters. */
  function LowerChar(c: char): char {
    if 'A' <= c <= 'Z' then (c as int + 32) as char
    else if 'À' <= c <= 'Þ' && c != '×' then (c as int + 32) as char
    else c
  }

  /** `s.toLowerCase()` */
  function Lower(s: string): (r: string)
    ensures |r| == |s|
    ensures forall i :: 0 <= i < |s| ==> r[i] == LowerChar(s[i])
    decreases |s|
  {
    if s == [] then [] else [LowerChar(s[0])] + Lower(s[1..])
  }

  /** Lower-casing is idempotent and leaves no upper-case ASCII letter. */
  lemma LowerIdempotent(s: string)
    ensures Lower(Lower(s)) == Lower(s)
    ensures forall i :: 0 <= i < |s| ==> !('A' <= Lower(s)[i] <= 'Z')
  {
  }

  /** `hay.includes(needle)` */
  function Includes(hay: string, needle: string): bool
    decreases |hay|
  {
    |needle| <= |hay| && (hay[..|needle|] == needle || Includes(hay[1..], needle))
  }

  /** `needle` occurs in `hay` starting at position `i`. */
  predicate OccursAt(hay: string, needle: string, i: int) {
    0 <= i <= |hay| - |needle| && hay[i..i + |needle|] == needle
  }

  /** `needle` occurs at some position of `hay`. */
  ghost predicate Occurs(hay: string, needle: string) {
    exists i :: OccursAt(hay, needle, i)
  }

  /** `includes` means: the needle occurs at some position of the hay. */
  lemma {:induction false} IncludesMeansOccurs(hay: string, needle: string)
    ensures Includes(hay, needle) <==> Occurs(hay, needle)
    decreases |hay|
  {
    if |needle| <= |hay| {
      if hay[..|needle|] == needle {
        assert OccursAt(hay, needle, 0);
      } else {
        IncludesMeansOccurs(hay[1..], needle);
        forall i | 0 < i ensures OccursAt(hay, needle, i) <==> OccursAt(hay[1..], needle, i - 1) {
          OccursInTail(hay, needle, i);
        }
        assert !OccursAt(hay, needle, 0);
        if Includes(hay[1..], needle) {
          var i :| OccursAt(hay[1..], needle, i);
          assert OccursAt(hay, needle, i + 1);
        }
      }
    }
  }

  /** An occurrence past the first position is an occurrence in the tail. */
  lemma OccursInTail(hay: string, needle: string, i: int)
    requires 0 < i && hay != []
    ensures OccursAt(hay, needle, i) <==> OccursAt(hay[1..], needle, i - 1)
  {
    if i <= |hay| - |needle| {
      var tail := hay[1..];
      assert tail[i - 1..i - 1 + |needle|] == hay[i..i + |needle|];
    }
  }

  /** The empty string is in every string. */
  lemma {:induction false} IncludesEmpty(hay: string)
    ensures Includes(hay, "")
  {
    assert hay[..0] == "";
  }

  // ----- The product filter -----

  /** `!selectedCategoryId || product.categoryId === selectedCategoryId`; the
      empty id counts as no selection. */
  predicate MatchesCategory(p: Product, selected: Option<string>) {
    selected.None? || selected.value == "" || p.categoryId == selected.value
  }

  /** `!searchTerm || name or description includes the term`, ignoring case. */
  predicate MatchesSearch(p: Product, term: string) {
    term == "" || Includes(Lower(p.name), Lower(term)) || Includes(Lower(p.description), Lower(term))
  }

  predicate Visible(p: Product, selected: Option<string>, term: string) {
    p.isActive && MatchesCategory(p, selected) && MatchesSearch(p, term)
  }

  /** `filteredProducts` */
  function FilteredProducts(products: seq<Product>, selected: Option<string>, term: string): seq<Product> {
    Seqs.Filter(products, (p: Product) => Visible(p, selected, term))
  }

  /** The catalogue shows, in their original order, exactly the active
      products of the selected category whose name or description contains
      the search term, ignoring case; no inactive product is ever shown. */
  lemma FilteredProductsMeaning(products: seq<Product>, selected: Option<string>, term: string)
    ensures var r := FilteredProducts(products, selected, term);
            && Seqs.IsSubsequence(r, products)
            && (forall i :: 0 <= i < |r| ==> r[i].isActive)
            && (forall i :: 0 <= i < |r| ==> selected.Some? && selected.value != "" ==> r[i].categoryId == selected.value)
            && (forall i :: 0 <= i < |products| ==>
                  (products[i] in r <==> products[i].isActive && MatchesCategory(products[i], selected) && MatchesSearch(products[i], term)))
            && (forall p :: multiset(r)[p] == if Visible(p, selected, term) then multiset(products)[p] else 0)
  {
    Seqs.FilterMultiset(products, (p: Product) => Visible(p, selected, term));
    Seqs.FilterIsSubsequence(products, (p: Product) => Visible(p, selected, term));
  }

  /** With no category and no search term, every active product is shown. */
  lemma {:induction false} NoFilterShowsActive(products: seq<Product>)
    ensures FilteredProducts(products, None, "") == Seqs.Filter(products, (p: Product) => p.isActive)
    decreases |products|
  {
    if products != [] {
      NoFilterShowsActive(products[1..]);
    }
  }

  /** A search term matches a product exactly when it occurs, ignoring case,
      in the name or the description. */
  lemma SearchMeaning(p: Product, term: string)
    requires term != ""
    ensures MatchesSearch(p, term) <==>
              Occurs(Lower(p.name), Lower(term)) || Occurs(Lower(p.description), Lower(term))
  {
    var name, description, t := Lower(p.name), Lower(p.description), Lower(term);
    assert t != "";
    assert MatchesSearch(p, term) <==> Includes(name, t) || Includes(description, t);
    IncludesMeansOccurs(name, t);
    IncludesMeansOccurs(description, t);
  }

  // ----- Promotions and announcements -----

  /** `activePromotions` */
  function ActivePromotions(promotions: seq<Promotion>, userType: UserType): seq<Promotion> {
    Seqs.Filter(promotions, (p: Promotion) => p.isActive && userType in p.userTypes)
  }

  /** `activeAnnouncements` */
  function ActiveAnnouncements(announcements: seq<Announcement>, userType: UserType): seq<Announcement> {
    Seqs.Filter(announcements, (a: Announcement) => a.isActive && userType in a.userTypes)
  }

  /** A user sees exactly the active promotions and announcements addressed
      to their type, in order. */
  lemma ActiveForUserMeaning(promotions: seq<Promotion>, announcements: seq<Announcement>, userType: UserType)
    ensures var r := ActivePromotions(promotions, userType);
            && Seqs.IsSubsequence(r, promotions)
            && forall i :: 0 <= i < |promotions| ==>
                 (promotions[i] in r <==> promotions[i].isActive && userType in promotions[i].userTypes)
    ensures var r := ActiveAnnouncements(announcements, userType);
            && Seqs.IsSubsequence(r, announcements)
            && forall i :: 0 <= i < |announcements| ==>
                 (announcements[i] in r <==> announcements[i].isActive && userType in announcements[i].userTypes)
  {
    Seqs.FilterIsSubsequence(promotions, (p: Promotion) => p.isActive && userType in p.userTypes);
    Seqs.FilterIsSubsequence(announcements, (a: Announcement) => a.isActive && userType in a.userTypes);
  }

  /** Every copy of an active item addressed to the user is shown, and no
      copy of any other item. */
  lemma ActiveForUserKeepsCopies(promotions: seq<Promotion>, announcements: seq<Announcement>, userType: UserType)
    ensures forall p :: multiset(ActivePromotions(promotions, userType))[p] ==
              if p.isActive && userType in p.userTypes then multiset(promotions)[p] else 0
    ensures forall a :: multiset(ActiveAnnouncements(announcements, userType))[a] ==
              if a.isActive && userType in a.userTypes then multiset(announcements)[a] else 0
  {
    Seqs.FilterMultiset(promotions, (p: Promotion) => p.isActive && userType in p.userTypes);
    Seqs.FilterMultiset(announcements, (a: Announcement) => a.isActive && userType in a.userTypes);
  }

  // ----- The page's filter state -----

  /** A click on a category: deselects it when selected, selects it otherwise. */
  function Toggled(selected: Option<string>, categoryId: string): (r: Option<string>)
    ensures r == None <==> selected == Some(categoryId)
    ensures r.Some? ==> r.value == categoryId
  {
    if selected == Some(categoryId) then None else Some(categoryId)
  }

  /** Clicking the same category twice from no selection, or from that
      category, comes back to where it started. */
  lemma ToggledTwice(selected: Option<string>, categoryId: string)
    requires selected == None || selected == Some(categoryId)
    ensures Toggled(Toggled(selected, categoryId), categoryId) == selected
  {
  }

  class Dashboard {
    var selectedCategoryId: Option<string>
    var searchTerm: string

    constructor ()
      ensures selectedCategoryId == None && searchTerm == ""
    {
      selectedCategoryId := None;
      searchTerm := "";
    }

    function Shown(products: seq<Product>): seq<Product>
      reads this
    {
      FilteredProducts(products, selectedCategoryId, searchTerm)
    }

    /** A category card's click. */
    method ClickCategory(categoryId: string)
      modifies this
      ensures selectedCategoryId == Toggled(old(selectedCategoryId), categoryId)
      ensures searchTerm == old(searchTerm)
    {
      if selectedCategoryId == Some(categoryId) {
        selectedCategoryId := None;
      } else {
        selectedCategoryId := Some(categoryId);
      }
    }

    /** The badge of the selected category: drops the selection. */
    method ClearCategory()
      modifies this
      ensures selectedCategoryId == None && searchTerm == old(searchTerm)
    {
      selectedCategoryId := None;
    }

    /** Typing in the search box. */
    method SetSearchTerm(term: string)
      modifies this
      ensures searchTerm == term && selectedCategoryId == old(selectedCategoryId)
    {
      searchTerm := term;
    }

    /** "Limpar filtros": no category and no search term, so every active
      product is shown again. */
    method ClearFilters(ghost products: seq<Product>)
      modifies this
      ensures selectedCategoryId == None && searchTerm == ""
      ensures Shown(products) == Seqs.Filter(products, (p: Product) => p.isActive)
    {
      selectedCategoryId := None;
      searchTerm := "";
      NoFilterShowsActive(products);
    }
  }
}
