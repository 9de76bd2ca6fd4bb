/**
 The installation records the gallery ships with, the filter and the
 buttons over them, and the gallery's initial state. Kept apart from
 `InstallationGallery` so that the proofs about the generic gallery do not
 carry the literal records.
 */
module GalleryCatalog {
  import opened Wrappers
  import opened InstallationGallery

  const BurwoodVideo := "https://hebbkx1anhila5yf.public.blob.vercel-storage.com/AQOaNld93axYbQkTeSuzhDotgRSocm_D_WsJgpmIfFfJoYiLDwUmdJlHHgoT3eZTNmBXFmO3ggEeItIOhueF15tRpcdSERTEpm4Wcn4-yrdWI6eSyvRPpe0YPCkKMQsh1BUcuk.mp4"

  // The six records of `installations`.
  const WarranwoodInstall := Installation(
    1, "Recent Installation in Warranwood", "Warranwood", "December 2024", Residential,
    ["/images/gallery/warranwood-installation.jpg"],
    "A recent installation in Warranwood \U{1F4CD}",
    "Fujitsu Split System",
    ["Professional Installation", "Clean Finish", "Optimal Positioning", "Customer Satisfaction"],
    None, None, false)

  const BurwoodInstall := Installation(
    2, "5x Fujitsu Split Systems - Double Story Townhouse", "Burwood", "December 2024", Residential,
    [BurwoodVideo],
    "5x Fujitsu split systems installed at a double story townhouse in Burwood, very happy with the finished product. \U{2705}",
    "5x Fujitsu Split Systems",
    ["Multi-Zone Installation", "Double Story Coverage", "Professional Finish", "Customer Satisfaction"],
    None, None, true)

  const DuctedInstall := Installation(
    3, "Fujitsu 26kW 3 Phase Ducted System", "Commercial Installation", "December 2024", Commercial,
    ["/images/gallery/fujitsu-26kw-ducted.jpg"],
    "Fujitsu 26kw 3 Phase Ducted RCAC fit off coming along.",
    "Fujitsu 26kW 3 Phase Ducted System",
    ["Commercial Grade", "3 Phase Power", "High Capacity", "Professional Installation"],
    None, None, false)

  const RayWhiteInstall := Installation(
    4, "Mitsubishi Heavy Industries for Ray White", "Ray White Real Estate", "November 2024", Commercial,
    ["/images/gallery/mitsubishi-heavy-raywhite.jpg"],
    "Supply & Install of 2x Mitsubishi Heavy Industries reverse cycle Split Systems completed for Ray White Real Estate.",
    "2x Mitsubishi Heavy Industries Split Systems",
    ["Commercial Installation", "Reverse Cycle", "Real Estate Office", "Professional Service"],
    None, None, false)

  const RowvilleInstall := Installation(
    5, "2x Panasonic Systems in Rowville", "Rowville", "November 2024", Residential,
    ["/images/gallery/panasonic-rowville.jpg"],
    "2x Panasonic 2.5kw Reverse Cycle Split System installations completed for a property in Rowville.",
    "2x Panasonic 2.5kW Split Systems",
    ["Dual Installation", "Energy Efficient", "Reverse Cycle", "Clean Installation"],
    None, None, false)

  const SheppartonInstall := Installation(
    6, "4x Systems Weekend Installation", "Shepparton", "November 2024", Residential,
    ["/images/gallery/hisense-shepparton.jpg"],
    "4x Reverse Cycle Split System installations this weekend in Shepparton.",
    "4x Hisense Split Systems",
    ["Weekend Service", "Multiple Units", "Reverse Cycle", "Efficient Installation"],
    None, None, false)

  /** `installations`, in declaration order. */
  const Catalog: seq<Installation> := [WarranwoodInstall, BurwoodInstall, DuctedInstall, RayWhiteInstall, RowvilleInstall, SheppartonInstall]

  lemma CatalogIsWellFormed()
    ensures WellFormedCatalog(Catalog)
    ensures forall x :: x in Catalog && x.isVideo ==> x.id == 2
  {
    var c := Catalog;
    assert |c| == 6;
    assert c[0].id == 1 && |c[0].images| == 1 && !c[0].isVideo;
    assert c[1].id == 2 && |c[1].images| == 1 && c[1].isVideo;
    assert c[2].id == 3 && |c[2].images| == 1 && !c[2].isVideo;
    assert c[3].id == 4 && |c[3].images| == 1 && !c[3].isVideo;
    assert c[4].id == 5 && |c[4].images| == 1 && !c[4].isVideo;
    assert c[5].id == 6 && |c[5].images| == 1 && !c[5].isVideo;
    assert forall i :: 0 <= i < |c| ==> c[i].id == i + 1;
  }

  /** `filteredInstallations`: the catalog records of the selected
      category, or all of them for "all", in catalog order. */
  function Filtered(selectedCategory: string): (r: seq<Installation>)
    ensures selectedCategory == "all" ==> r == Catalog
    ensures forall x :: x in r <==> x in Catalog && (selectedCategory == "all" || CategoryId(x.category) == selectedCategory)
    ensures IsSubsequence(r, Catalog)
  {
    FilteredFrom(Catalog, selectedCategory)
  }

  /** `categories`: the four buttons over the shipped catalog, each badge
      counting the cards its button shows. */
  function Categories(): (r: seq<CategoryButton>)
    ensures |r| == 4 && r[0].id == "all" && r[0].count == |Catalog|
    ensures forall b :: b in r ==> b.count == |Filtered(b.id)|
  {
    ButtonCountsMatchFilters(Catalog);
    ButtonsFor(Catalog)
  }

  /** The badge on each filter button counts exactly the cards that button
      shows, and the category counts add up to the "all" count. */
  lemma CategoryCountsMatchFilters()
    ensures forall b :: b in Categories() ==> b.count == |Filtered(b.id)|
    ensures Categories()[1].count + Categories()[2].count + Categories()[3].count == Categories()[0].count
  {
    ButtonCountsMatchFilters(Catalog);
  }

  /** As the catalog stands, no record offers paging and none offers the
      before/after toggle. */
  lemma CatalogOffersNoPagingOrComparison()
    ensures forall x :: x in Catalog ==> !OffersPaging(x) && !OffersComparison(x)
  {
  }

  /** The gallery as first rendered: the shipped records, every card shown,
      no modal open. */
  method NewGallery() returns (g: GalleryState)
    ensures fresh(g) && g.Valid()
    ensures g.installations == Catalog && g.Visible() == Filtered("all")
    ensures g.selectedCategory == "all" && g.selectedInstallation == None
    ensures g.currentImageIndex == 0 && !g.showBeforeAfter
  {
    CatalogIsWellFormed();
    g := new GalleryState(Catalog);
  }
}
