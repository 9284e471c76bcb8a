/** The homepage content editor of the admin console (ContentView.tsx): the
    draft of the site content and the handlers that reorder, edit, add and
    remove its sections and the banners inside them. */
module ContentEditor {
  import opened Types
  import opened Seqs
  import Text

  // --- Sections ---

  /** `sections.findIndex(s => s.id === id)`: the first position with that id, or -1. */
  function FindIndex(s: seq<HomePageSection>, id: string): (r: int)
    ensures -1 <= r < |s|
    ensures r == -1 <==> forall k :: 0 <= k < |s| ==> s[k].id != id
    ensures r >= 0 ==> s[r].id == id && forall k :: 0 <= k < r ==> s[k].id != id
    decreases |s|
  {
    if s == [] then -1
    else if s[0].id == id then 0
    else
      var r := FindIndex(s[1..], id);
      if r == -1 then -1 else r + 1
  }

  /** The sections after moving the first one with id `id` up (towards the
      start) or down by one place: an unknown id, or a move past either end,
      leaves them as they are. */
  function Moved(s: seq<HomePageSection>, id: string, up: bool): seq<HomePageSection>
  {
    var i := FindIndex(s, id);
    if i == -1 then s
    else
      var t := if up then i - 1 else i + 1;
      if t < 0 || t >= |s| then s
      else s[i := s[t]][t := s[i]]
  }

  /** A move keeps every section exactly once. */
  lemma MovePermutes(s: seq<HomePageSection>, id: string, up: bool)
    ensures |Moved(s, id, up)| == |s|
    ensures multiset(Moved(s, id, up)) == multiset(s)
  {
    var i := FindIndex(s, id);
    if i != -1 {
      var t := if up then i - 1 else i + 1;
      if 0 <= t < |s| {
        SwapPermutes(s, i, t);
      }
    }
  }

  lemma SwapPermutes<T>(s: seq<T>, i: int, j: int)
    requires 0 <= i < |s| && 0 <= j < |s|
    ensures multiset(s[i := s[j]][j := s[i]]) == multiset(s)
  {
    var u := s[i := s[j]];
    assert multiset(u) == multiset(s) - multiset{s[i]} + multiset{s[j]};
  }

  /** A move swaps the section with its neighbour and touches nothing else. */
  lemma MoveSwapsNeighbours(s: seq<HomePageSection>, id: string, up: bool)
    requires FindIndex(s, id) != -1
    requires var t := if up then FindIndex(s, id) - 1 else FindIndex(s, id) + 1; 0 <= t < |s|
    ensures var i := FindIndex(s, id);
            var t := if up then i - 1 else i + 1;
            var r := Moved(s, id, up);
            |r| == |s| && r[t] == s[i] && r[i] == s[t] && r[t].id == id
            && forall k :: 0 <= k < |s| && k != i && k != t ==> r[k] == s[k]
  {
  }

  /** A legal move up followed by a move down restores the order. */
  lemma MoveUpThenDown(s: seq<HomePageSection>, id: string)
    requires FindIndex(s, id) >= 1
    ensures Moved(Moved(s, id, true), id, false) == s
  {
    var i := FindIndex(s, id);
    var m := s[i := s[i - 1]][i - 1 := s[i]];
    assert Moved(s, id, true) == m;
    assert forall k :: 0 <= k < i - 1 ==> m[k] == s[k];
    FindIndexAt(m, id, i - 1);
    assert Moved(m, id, false) == m[i - 1 := m[i]][i := m[i - 1]];
    assert m[i - 1 := m[i]][i := m[i - 1]] == s;
  }

  /** The first position holding the id is the one `findIndex` returns. */
  lemma FindIndexAt(s: seq<HomePageSection>, id: string, j: int)
    requires 0 <= j < |s| && s[j].id == id
    requires forall k :: 0 <= k < j ==> s[k].id != id
    ensures FindIndex(s, id) == j
  {
  }

  /** The field-level edits the section forms send (`Partial<HomePageSection>`). */
  datatype SectionUpdate =
    | SetEnabled(enabled: bool)
    | SetBanners(banners: seq<BannerContent>)
    | SetTitle(title: string)
    | SetCategoryIds(categoryIds: seq<string>)
    | SetFilter(filter: CarouselFilter)
    | SetLayout(layout: CarouselLayout)
    | SetBannerType(bannerType: BannerType)
    | SetContent(content: BannerContent)

  /** `{ ...section, ...updates }`: the named field takes the new value; a
      field the section's kind does not have is not added. */
  function Apply(x: HomePageSection, u: SectionUpdate): (r: HomePageSection)
    ensures r.id == x.id && KindOf(r) == KindOf(x)
    ensures u.SetEnabled? ==> r == x.(enabled := u.enabled)
    ensures !u.SetEnabled? ==> r.enabled == x.enabled
  {
    match u
    case SetEnabled(e) => x.(enabled := e)
    case SetBanners(bs) => if x.body.Hero? then x.(body := x.body.(banners := bs)) else x
    case SetTitle(t) =>
      if x.body.CategoryGrid? || x.body.ProductCarousel? then x.(body := x.body.(title := t)) else x
    case SetCategoryIds(ids) => if x.body.CategoryGrid? then x.(body := x.body.(categoryIds := ids)) else x
    case SetFilter(f) => if x.body.ProductCarousel? then x.(body := x.body.(filter := f)) else x
    case SetLayout(l) => if x.body.ProductCarousel? then x.(body := x.body.(layout := l)) else x
    case SetBannerType(t) => if x.body.PromoBanner? then x.(body := x.body.(bannerType := t)) else x
    case SetContent(c) => if x.body.PromoBanner? then x.(body := x.body.(content := c)) else x
  }

  /** `sections.map(s => s.id === id ? { ...s, ...updates } : s)`. */
  function UpdateWhere(s: seq<HomePageSection>, id: string, u: SectionUpdate): (r: seq<HomePageSection>)
    ensures |r| == |s|
    ensures forall k :: 0 <= k < |s| ==> r[k].id == s[k].id && KindOf(r[k]) == KindOf(s[k])
    ensures forall k :: 0 <= k < |s| && s[k].id != id ==> r[k] == s[k]
    ensures forall k :: 0 <= k < |s| && s[k].id == id ==> r[k] == Apply(s[k], u)
  {
    seq(|s|, k requires 0 <= k < |s| => if s[k].id == id then Apply(s[k], u) else s[k])
  }

  /** Updating an id no section has changes nothing. */
  lemma UpdateMissing(s: seq<HomePageSection>, id: string, u: SectionUpdate)
    requires forall k :: 0 <= k < |s| ==> s[k].id != id
    ensures UpdateWhere(s, id, u) == s
  {
  }

  /** `handleCategoryToggle` in the category-grid form: the update it sends
      drops the category from the grid's ids when it is there (every copy)
      and appends it otherwise. */
  function CategoryToggle(x: HomePageSection, catId: string): (u: SectionUpdate)
    requires x.body.CategoryGrid?
    ensures u.SetCategoryIds?
    ensures catId in x.body.categoryIds ==>
              catId !in u.categoryIds
              && forall c :: c != catId ==> (c in u.categoryIds <==> c in x.body.categoryIds)
    ensures catId !in x.body.categoryIds ==> u.categoryIds == x.body.categoryIds + [catId]
  {
    SetCategoryIds(Toggle(x.body.categoryIds, catId))
  }

  /** Ticking a category and unticking it again gives the grid back. */
  lemma CategoryToggleTwice(x: HomePageSection, catId: string)
    requires x.body.CategoryGrid? && catId !in x.body.categoryIds
    ensures var y := Apply(x, CategoryToggle(x, catId));
            y.body.CategoryGrid? && Apply(y, CategoryToggle(y, catId)) == x
  {
    ToggleTwiceFromAbsent(x.body.categoryIds, catId);
  }

  /** The promotional banner every new promo section starts with. */
  const PromoDefault := BannerContent(true, "", "عنوان البانر", "", "تسوق", "products", PageLink, TextCenter)

  /** The section `handleAddSection` builds for a kind. */
  function NewSection(kind: SectionKind, freshId: string): (r: HomePageSection)
    ensures r.id == freshId && r.enabled && KindOf(r) == kind
    ensures kind == HeroKind ==> r.body.banners == []
    ensures kind == CategoryGridKind ==> r.body.categoryIds == []
    ensures kind == ProductCarouselKind ==>
              r.body.filter == ByNew && r.body.layout == DefaultLayout && r.body.linkToPage == Products
    ensures kind == PromoBannerKind ==> r.body.bannerType == Full && r.body.content == PromoDefault
  {
    match kind
    case HeroKind => HomePageSection(freshId, true, Hero([]))
    case CategoryGridKind => HomePageSection(freshId, true, CategoryGrid("فئات مميزة", []))
    case ProductCarouselKind => HomePageSection(freshId, true, ProductCarousel("منتجات جديدة", ByNew, DefaultLayout, Products))
    case PromoBannerKind => HomePageSection(freshId, true, PromoBanner(Full, PromoDefault))
  }

  function SectionNotFor(id: string): HomePageSection -> bool
  {
    (x: HomePageSection) => x.id != id
  }

  // --- Banners ---

  /** The field-level edits a banner form sends (`Partial<BannerContent>`). */
  datatype BannerUpdate =
    | SetImage(image: string)
    | SetBannerTitle(title: string)
    | SetSubtitle(subtitle: string)
    | SetButtonText(buttonText: string)
    | SetTextLayout(layout: TextLayout)
    | SetLinkType(linkType: LinkType, link: string)
    | SetLink(link: string)
    | SetBannerEnabled(enabled: bool)

  /** `{ ...banner, ...updates }`. */
  function ApplyBanner(b: BannerContent, u: BannerUpdate): BannerContent
  {
    match u
    case SetImage(x) => b.(image := x)
    case SetBannerTitle(x) => b.(title := x)
    case SetSubtitle(x) => b.(subtitle := x)
    case SetButtonText(x) => b.(buttonText := x)
    case SetTextLayout(x) => b.(layout := x)
    case SetLinkType(t, l) => b.(linkType := t, link := l)
    case SetLink(l) => b.(link := l)
    case SetBannerEnabled(e) => b.(enabled := e)
  }

  /** Choosing a link type also resets the destination: the first page of
      the page list (`home`) or the first category. */
  function LinkTypeChosen(t: LinkType, categories: seq<Category>): (u: BannerUpdate)
    requires t == CategoryLink ==> |categories| > 0
    ensures forall b :: ApplyBanner(b, u).linkType == t
    ensures t == PageLink ==> forall b :: ApplyBanner(b, u).link == "home"
    ensures t == CategoryLink ==> forall b :: ApplyBanner(b, u).link == categories[0].id
    ensures forall b :: ApplyBanner(b, u) == b.(linkType := ApplyBanner(b, u).linkType, link := ApplyBanner(b, u).link)
  {
    SetLinkType(t, if t == PageLink then "home" else categories[0].id)
  }

  /** `handleBannerChange`: banner `i` takes the edit, the others stay. */
  function ChangeBanner(bs: seq<BannerContent>, i: int, u: BannerUpdate): (r: seq<BannerContent>)
    requires 0 <= i < |bs|
    ensures |r| == |bs| && r[i] == ApplyBanner(bs[i], u)
    ensures forall k :: 0 <= k < |bs| && k != i ==> r[k] == bs[k]
  {
    bs[i := ApplyBanner(bs[i], u)]
  }

  /** The banner `addBanner` appends. */
  const NewBanner := BannerContent(true, "", "عنوان جديد", "", "تسوق الآن", "products", PageLink, TextCenter)

  /** `banners.filter((_, k) => k !== i)`: the banner at `i` goes, the rest
      keep their order; an index outside the list removes nothing. */
  function RemoveBanner(bs: seq<BannerContent>, i: int): (r: seq<BannerContent>)
    ensures 0 <= i < |bs| ==> |r| == |bs| - 1
    ensures !(0 <= i < |bs|) ==> r == bs
    ensures forall k :: 0 <= k < i && k < |r| ==> r[k] == bs[k]
    ensures forall k :: 0 <= i <= k < |r| ==> r[k] == bs[k + 1]
  {
    if 0 <= i < |bs| then bs[..i] + bs[i + 1..] else bs
  }

  /** Removing the banner just added gives back the list. */
  lemma {:induction false} AddThenRemoveBanner(bs: seq<BannerContent>)
    ensures RemoveBanner(bs + [NewBanner], |bs|) == bs
  {
    assert (bs + [NewBanner])[..|bs|] == bs;
  }

  // --- Banner image input mode ---

  datatype ImageInput = UrlInput | FileInput

  /** An uploaded image is stored inline as a data URL. */
  predicate IsUpload(image: string)
  {
    Text.StartsWith(image, "data:image")
  }

  /** The mode a banner form opens in: file for a stored upload, url otherwise. */
  function InitialInput(image: string): (t: ImageInput)
    ensures t.FileInput? <==> IsUpload(image)
  {
    if image != "" && IsUpload(image) then FileInput else UrlInput
  }

  /** `handleInputTypeChange`: switching to url clears an uploaded image,
      switching to file clears a linked one; the write, if any, is returned. */
  function InputSwitchWrite(t: ImageInput, image: string): (w: Option<BannerUpdate>)
    ensures w.Some? ==> w.value == SetImage("")
    ensures w.None? <==> (t.FileInput? <==> IsUpload(image))
  {
    if t.UrlInput? && IsUpload(image) then Some(SetImage(""))
    else if t.FileInput? && !IsUpload(image) then Some(SetImage(""))
    else None
  }

  /** After a switch the image is empty or of the kind the new mode edits,
      so reopening the form picks the same mode. */
  lemma InputSwitchConsistent(b: BannerContent, t: ImageInput)
    ensures var w := InputSwitchWrite(t, b.image);
            var after := if w.Some? then ApplyBanner(b, w.value) else b;
            after.image == "" || InitialInput(after.image) == t
  {
  }

  /** The editor's draft (`formData`). */
  class Editor {
    var draft: SiteContent

    constructor(content: SiteContent)
      ensures draft == content
    {
      draft := content;
    }

    /** `handleMoveSection`: copy the sections, find the section, swap it
        with its neighbour in the copy and install the copy. */
    method MoveSection(id: string, up: bool)
      modifies this
      ensures draft == old(draft).(sections := Moved(old(draft.sections), id, up))
    {
      var s := draft.sections;
      var copy := new HomePageSection[|s|](k requires 0 <= k < |s| => s[k]);
      var index := 0;
      while index < copy.Length && copy[index].id != id
        invariant 0 <= index <= copy.Length
        invariant copy[..] == s
        invariant forall k :: 0 <= k < index ==> s[k].id != id
      {
        index := index + 1;
      }
      if index == copy.Length {
        return;
      }
      assert index == FindIndex(s, id);
      var target := if up then index - 1 else index + 1;
      if target < 0 || target >= copy.Length {
        return;
      }
      copy[index], copy[target] := copy[target], copy[index];
      draft := draft.(sections := copy[..]);
    }

    /** `handleUpdateSection`. */
    method UpdateSection(id: string, u: SectionUpdate)
      modifies this
      ensures draft == old(draft).(sections := UpdateWhere(old(draft.sections), id, u))
    {
      draft := draft.(sections := UpdateWhere(draft.sections, id, u));
    }

    /** `handleAddSection`, with the fresh id passed in. */
    method AddSection(kind: SectionKind, freshId: string)
      modifies this
      ensures draft == old(draft).(sections := old(draft.sections) + [NewSection(kind, freshId)])
    {
      draft := draft.(sections := draft.sections + [NewSection(kind, freshId)]);
    }

    /** `handleRemoveSection`: only a confirmed removal drops the sections
        with that id. */
    method RemoveSection(id: string, confirmed: bool)
      modifies this
      ensures confirmed ==> draft == old(draft).(sections := Filter(old(draft.sections), SectionNotFor(id)))
      ensures !confirmed ==> draft == old(draft)
    {
      if confirmed {
        draft := draft.(sections := Filter(draft.sections, SectionNotFor(id)));
      }
    }
  }

  /** A confirmed removal leaves no section with that id and keeps every other one, in order. */
  lemma RemoveSectionExact(s: seq<HomePageSection>, id: string)
    ensures forall x :: x in Filter(s, SectionNotFor(id)) <==> x in s && x.id != id
    ensures Subsequence(Filter(s, SectionNotFor(id)), s)
  {
    FilterIsSubsequence(s, SectionNotFor(id));
  }
}
