/**
 The installation gallery over a list of installation records: a category
 filter with per-category counts, and a modal view over one record with
 image paging that wraps around and a before/after toggle. The shipped
 list of records is in `GalleryCatalog`.
 */
module InstallationGallery {
  import opened Wrappers
  import opened Js

  datatype Category = Residential | Commercial | Maintenance

  /** The string a record's `category` field holds. */
  function CategoryId(c: Category): string {
    match c
    case Residential => "residential"
    case Commercial => "commercial"
    case Maintenance => "maintenance"
  }

  /** An `Installation`; an absent `isVideo` reads as false. */
  datatype Installation = Installation(
    id: int,
    title: string,
    location: string,
    date: string,
    category: Category,
    images: seq<string>,
    description: string,
    unit: string,
    features: seq<string>,
    beforeImage: Option<string>,
    afterImage: Option<string>,
    isVideo: bool)

  /** The catalog's invariants: distinct ids, at least one media entry per
      record, and the video record has exactly one. */
  predicate WellFormedCatalog(xs: seq<Installation>) {
    && (forall i, j :: 0 <= i < j < |xs| ==> xs[i].id != xs[j].id)
    && (forall x :: x in xs ==> |x.images| > 0)
    && (forall x :: x in xs && x.isVideo ==> |x.images| == 1)
  }

  /** `xs` keeps some of the elements of `ys`, in their order. */
  predicate IsSubsequence(xs: seq<Installation>, ys: seq<Installation>) {
    if xs == [] then true
    else if ys == [] then false
    else if xs[0] == ys[0] then IsSubsequence(xs[1..], ys[1..])
    else IsSubsequence(xs, ys[1..])
  }

  /** How many elements of `xs` have category `id`. */
  function CountOf(xs: seq<Installation>, id: string): nat {
    if xs == [] then 0
    else CountOf(xs[1..], id) + (if CategoryId(xs[0].category) == id then 1 else 0)
  }

  /** `xs.filter((installation) => installation.category === id)`: the
      records of that category, all of them, in their order in `xs`. */
  function FilterBy(xs: seq<Installation>, id: string): (r: seq<Installation>)
    ensures forall x :: x in r <==> x in xs && CategoryId(x.category) == id
    ensures IsSubsequence(r, xs)
    ensures |r| == CountOf(xs, id)
  {
    if xs == [] then []
    else if CategoryId(xs[0].category) == id then [xs[0]] + FilterBy(xs[1..], id)
    else FilterBy(xs[1..], id)
  }

  /** The cards shown for a selection over a catalog `xs`: all of `xs`
      for "all", the records of the selected category otherwise. */
  function FilteredFrom(xs: seq<Installation>, selectedCategory: string): (r: seq<Installation>)
    ensures selectedCategory == "all" ==> r == xs
    ensures selectedCategory != "all" ==> r == FilterBy(xs, selectedCategory)
    ensures forall x :: x in r <==> x in xs && (selectedCategory == "all" || CategoryId(x.category) == selectedCategory)
    ensures IsSubsequence(r, xs)
  {
    if selectedCategory == "all" then
      SubsequenceOfItself(xs);
      xs
    else
      FilterBy(xs, selectedCategory)
  }

  lemma {:induction false} SubsequenceOfItself(xs: seq<Installation>)
    ensures IsSubsequence(xs, xs)
  {
    if xs != [] {
      SubsequenceOfItself(xs[1..]);
    }
  }

  /** A filter button: its `id`, its label and the count on its badge. */
  datatype CategoryButton = CategoryButton(id: string, caption: string, count: nat)

  /** The filter buttons for a catalog `xs`, in display order: "all" and
      the three categories, each counting the records its filter shows. */
  function ButtonsFor(xs: seq<Installation>): (r: seq<CategoryButton>)
    ensures |r| == 4
    ensures r[0].id == "all" && r[1].id == "residential" && r[2].id == "commercial" && r[3].id == "maintenance"
    ensures r[0].caption == "All Projects" && r[1].caption == "Residential"
    ensures r[2].caption == "Commercial" && r[3].caption == "Maintenance"
    ensures r[0].count == |xs|
    ensures r[1].count == CountOf(xs, "residential")
    ensures r[2].count == CountOf(xs, "commercial")
    ensures r[3].count == CountOf(xs, "maintenance")
  {
    [ CategoryButton("all", "All Projects", |xs|),
      CategoryButton("residential", "Residential", |FilterBy(xs, "residential")|),
      CategoryButton("commercial", "Commercial", |FilterBy(xs, "commercial")|),
      CategoryButton("maintenance", "Maintenance", |FilterBy(xs, "maintenance")|) ]
  }

  /** Every record has one of the three categories, so the three category
      counts add up to the length of the list. */
  lemma {:induction false} CategoryCountsPartition(xs: seq<Installation>)
    ensures CountOf(xs, "residential") + CountOf(xs, "commercial") + CountOf(xs, "maintenance") == |xs|
  {
    if xs != [] {
      CategoryCountsPartition(xs[1..]);
    }
  }

  /** The count on each button is the number of records its filter keeps,
      and the three category counts add up to the "all" count. */
  lemma ButtonCountsMatchFilters(xs: seq<Installation>)
    ensures |ButtonsFor(xs)| == 4
    ensures forall b :: b in ButtonsFor(xs) ==> b.count == |FilteredFrom(xs, b.id)|
    ensures ButtonsFor(xs)[1].count + ButtonsFor(xs)[2].count + ButtonsFor(xs)[3].count == ButtonsFor(xs)[0].count
  {
    var r := ButtonsFor(xs);
    assert r[0].count == |FilteredFrom(xs, "all")|;
    assert r[1].count == |FilteredFrom(xs, "residential")|;
    assert r[2].count == |FilteredFrom(xs, "commercial")|;
    assert r[3].count == |FilteredFrom(xs, "maintenance")|;
    CategoryCountsPartition(xs);
  }

  const ResidentialColor := "bg-blue-100 text-blue-800 " + "dark:bg-blue-900/20 dark:text-blue-300"
  const CommercialColor := "bg-green-100 text-green-800 " + "dark:bg-green-900/20 dark:text-green-300"
  const MaintenanceColor := "bg-orange-100 text-orange-800 " + "dark:bg-orange-900/20 dark:text-orange-300"
  const DefaultColor := "bg-gray-100 text-gray-800 " + "dark:bg-gray-900/20 dark:text-gray-300"

  /** `getCategoryColor`: blue, green and orange for the three categories,
      grey for any other string. */
  function CategoryColor(category: string): (color: string)
    ensures category == "residential" ==> color == ResidentialColor
    ensures category == "commercial" ==> color == CommercialColor
    ensures category == "maintenance" ==> color == MaintenanceColor
    ensures category !in {"residential", "commercial", "maintenance"} ==> color == DefaultColor
  {
    match category
    case "residential" => ResidentialColor
    case "commercial" => CommercialColor
    case "maintenance" => MaintenanceColor
    case _ => DefaultColor
  }

  /** The three categories get three different colours, none of them the
      grey fallback. */
  lemma CategoryColorsDistinct(c: Category, d: Category)
    ensures c != d ==> CategoryColor(CategoryId(c)) != CategoryColor(CategoryId(d))
    ensures CategoryColor(CategoryId(c)) != DefaultColor
  {
    // the colour names differ within their first six characters
    assert ResidentialColor[3] == 'b' && MaintenanceColor[3] == 'o';
    assert CommercialColor[3] == 'g' && CommercialColor[5] == 'e';
    assert DefaultColor[3] == 'g' && DefaultColor[5] == 'a';
  }

  /** The index `nextImage` moves to. */
  function NextIndex(prev: int, n: int): (r: int)
    ensures 0 <= prev < n ==> r == (prev + 1) % n
  {
    if prev == n - 1 then 0 else prev + 1
  }

  /** The index `prevImage` moves to. */
  function PrevIndex(prev: int, n: int): (r: int)
    ensures 0 <= prev < n ==> r == (prev - 1 + n) % n
  {
    if prev == 0 then n - 1 else prev - 1
  }

  /** The two moves undo each other. */
  lemma PrevUndoesNext(i: int, n: int)
    requires 0 <= i < n
    ensures PrevIndex(NextIndex(i, n), n) == i
    ensures NextIndex(PrevIndex(i, n), n) == i
  {
  }

  /** `k` presses of the next arrow from index `i`. */
  function AdvanceBy(i: int, n: int, k: nat): int {
    if k == 0 then i else NextIndex(AdvanceBy(i, n, k - 1), n)
  }

  /** Pressing next `k` times lands on `(i + k) mod n`; after `n` presses
      the viewer is back where it started. */
  lemma {:induction false} AdvanceByIsModular(i: int, n: int, k: nat)
    requires 0 <= i < n
    ensures AdvanceBy(i, n, k) == (i + k) % n
  {
    if k > 0 {
      var m := i + k - 1;
      AdvanceByIsModular(i, n, k - 1);
      assert AdvanceBy(i, n, k - 1) == m % n;
      assert AdvanceBy(i, n, k) == NextIndex(m % n, n);
      NextIndexOfRemainder(m, n);
      assert m + 1 == i + k;
    }
  }

  /** One press of next from `m mod n` lands on `(m + 1) mod n`. */
  lemma NextIndexOfRemainder(m: int, n: int)
    requires n > 0
    ensures NextIndex(m % n, n) == (m + 1) % n
  {
    var q, r := m / n, m % n;
    assert m == q * n + r;
    if r == n - 1 {
      assert m + 1 == (q + 1) * n;
      ModOfMultiple(m + 1, n, q + 1);
    } else {
      ModUnique(m + 1, n, q, r + 1);
    }
  }

  /** Euclidean division leaves a unique remainder. */
  lemma ModUnique(a: int, n: int, q: int, r: int)
    requires n > 0 && 0 <= r < n && a == q * n + r
    ensures a % n == r
  {
    var d := q - a / n;
    assert d * n == a % n - r;
  }

  lemma ModOfMultiple(a: int, n: int, q: int)
    requires n > 0 && a == q * n
    ensures a % n == 0
  {
    ModUnique(a, n, q, 0);
  }

  /** The arrows and the thumbnails are offered only for a photo record
      with more than one image. */
  predicate OffersPaging(x: Installation) {
    |x.images| > 1 && !x.isVideo
  }

  /** The before/after toggle is offered only when both images are there. */
  predicate OffersComparison(x: Installation) {
    Present(x.beforeImage) && Present(x.afterImage)
  }

  /** Where a click in the open modal lands. */
  datatype ClickTarget = Backdrop | Panel | CloseButton

  class GalleryState {
    /** The records the gallery lists: `installations`. */
    const installations: seq<Installation>
    var selectedCategory: string
    var selectedInstallation: Option<Installation>
    var currentImageIndex: int
    var showBeforeAfter: bool

    /** The list is well formed, and an open record comes from it with the
        index pointing into its media list. */
    ghost predicate Valid()
      reads this
    {
      && WellFormedCatalog(installations)
      && (selectedInstallation.Some? ==>
            selectedInstallation.value in installations &&
            0 <= currentImageIndex < |selectedInstallation.value.images|)
    }

    /** The cards currently shown. */
    function Visible(): seq<Installation>
      reads this
    {
      FilteredFrom(installations, selectedCategory)
    }

    /** The initial state: every card shown, no modal open. */
    constructor (installations: seq<Installation>)
      requires WellFormedCatalog(installations)
      ensures Valid()
      ensures this.installations == installations && Visible() == installations
      ensures selectedCategory == "all" && selectedInstallation == None
      ensures currentImageIndex == 0 && !showBeforeAfter
    {
      this.installations := installations;
      selectedCategory := "all";
      selectedInstallation := None;
      currentImageIndex := 0;
      showBeforeAfter := false;
    }

    /** A click on a filter button. */
    method SelectCategory(id: string)
      requires Valid()
      modifies this
      ensures Valid()
      ensures selectedCategory == id && Visible() == FilteredFrom(installations, id)
      ensures selectedInstallation == old(selectedInstallation)
      ensures currentImageIndex == old(currentImageIndex) && showBeforeAfter == old(showBeforeAfter)
    {
      selectedCategory := id;
    }

    /** A click on a visible card opens it on its first image, with the
        comparison hidden. */
    method OpenCard(installation: Installation)
      requires Valid() && installation in Visible()
      modifies this
      ensures Valid()
      ensures selectedInstallation == Some(installation)
      ensures currentImageIndex == 0 && !showBeforeAfter
      ensures selectedCategory == old(selectedCategory)
    {
      selectedInstallation := Some(installation);
      currentImageIndex := 0;
      showBeforeAfter := false;
    }

    /** `nextImage`: one step forward with wrap-around; nothing changes
        when no record is selected. */
    method NextImage()
      requires Valid()
      modifies this
      ensures Valid()
      ensures old(selectedInstallation).Some? ==>
        currentImageIndex == (old(currentImageIndex) + 1) % |old(selectedInstallation).value.images|
      ensures old(selectedInstallation).None? ==> currentImageIndex == old(currentImageIndex)
      ensures selectedInstallation == old(selectedInstallation) && selectedCategory == old(selectedCategory)
      ensures showBeforeAfter == old(showBeforeAfter)
    {
      if selectedInstallation.Some? {
        currentImageIndex := NextIndex(currentImageIndex, |selectedInstallation.value.images|);
      }
    }

    /** `prevImage`: one step back with wrap-around; nothing changes when no
        record is selected. */
    method PrevImage()
      requires Valid()
      modifies this
      ensures Valid()
      ensures old(selectedInstallation).Some? ==>
        currentImageIndex == (old(currentImageIndex) - 1 + |old(selectedInstallation).value.images|) % |old(selectedInstallation).value.images|
      ensures old(selectedInstallation).None? ==> currentImageIndex == old(currentImageIndex)
      ensures selectedInstallation == old(selectedInstallation) && selectedCategory == old(selectedCategory)
      ensures showBeforeAfter == old(showBeforeAfter)
    {
      if selectedInstallation.Some? {
        currentImageIndex := PrevIndex(currentImageIndex, |selectedInstallation.value.images|);
      }
    }

    /** A click while the modal is open. The backdrop and the X button
        close it (leaving the index and the toggle as they were); a click
        elsewhere on the panel stops propagating and changes nothing. */
    method Click(target: ClickTarget)
      requires Valid() && selectedInstallation.Some?
      modifies this
      ensures Valid()
      ensures target == Panel ==> selectedInstallation == old(selectedInstallation)
      ensures target != Panel ==> selectedInstallation == None
      ensures currentImageIndex == old(currentImageIndex) && showBeforeAfter == old(showBeforeAfter)
      ensures selectedCategory == old(selectedCategory)
    {
      if target != Panel {
        selectedInstallation := None;
      }
    }

    /** A click on thumbnail `k`, offered only for a record with paging. */
    method SelectThumbnail(k: int)
      requires Valid() && selectedInstallation.Some?
      requires OffersPaging(selectedInstallation.value) && 0 <= k < |selectedInstallation.value.images|
      modifies this
      ensures Valid()
      ensures currentImageIndex == k
      ensures selectedInstallation == old(selectedInstallation) && selectedCategory == old(selectedCategory)
      ensures showBeforeAfter == old(showBeforeAfter)
    {
      currentImageIndex := k;
    }

    /** The "Show/Hide Comparison" button, offered only when the record has
        both a before and an after image. */
    method ToggleBeforeAfter()
      requires Valid() && selectedInstallation.Some? && OffersComparison(selectedInstallation.value)
      modifies this
      ensures Valid()
      ensures showBeforeAfter == !old(showBeforeAfter)
      ensures selectedInstallation == old(selectedInstallation) && selectedCategory == old(selectedCategory)
      ensures currentImageIndex == old(currentImageIndex)
    {
      showBeforeAfter := !showBeforeAfter;
    }
  }
}
