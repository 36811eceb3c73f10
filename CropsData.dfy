/**
  The crop reference page (src/pages/CropsData.jsx): a fixed list of ten crops, the search box and
  water-requirement filter that narrow it, and the popup that shows one crop in full.
*/
module CropsData {
  import opened Wrappers
  import opened Seqs
  import opened Text

  /** One entry of `crops`. */
  datatype Crop = Crop(name: string, image: string, description: string, waterRequirement: string, fullDescription: string)

  const Wheat := Crop("Wheat", "/assets/wheat.jpeg", "Wheat is a cereal grain.", "500-650 mm",
    "Wheat is a grass widely cultivated for its seed, a grain which is a worldwide staple food.")
  const Rice := Crop("Rice", "/assets/rice.jpeg", "Rice is a staple food.", "450-700 mm",
    "Rice is the seed of the grass species Oryza sativa or Oryza glaberrima. As a cereal grain, it is the most widely consumed staple food for a large part of the world's human population, especially in Asia.")
  const Coffee := Crop("Coffee", "/assets/coffee.jpeg", "Coffee is a brewed drink prepared from roasted coffee beans.", "1500-2500 mm",
    "Coffee is a brewed drink prepared from roasted coffee beans, the seeds of berries from certain Coffea species.")
  const Tea := Crop("Tea", "/assets/tea.jpeg", "Tea is an aromatic beverage commonly prepared by pouring hot water over cured leaves.", "1200-1400 mm",
    "Tea is an aromatic beverage commonly prepared by pouring hot or boiling water over cured or fresh leaves of Camellia sinensis, an evergreen shrub native to East Asia.")
  const Pepper := Crop("Pepper", "/assets/pepper.jpeg", "Pepper is a flowering vine in the family Piperaceae.", "2000-3000 mm",
    "Pepper is a flowering vine in the family Piperaceae, cultivated for its fruit, known as a peppercorn, which is usually dried and used as a spice and seasoning.")
  const Sugarcane := Crop("Sugarcane", "/assets/shugarcane.jpeg", "Sugarcane is a tropical, perennial grass.", "1500-2500 mm",
    "Sugarcane is a tropical, perennial grass that forms lateral shoots at the base to produce multiple stems, typically three to four meters high and about 5 cm in diameter.")
  const Cotton := Crop("Cotton", "/assets/cotton.jpeg", "Cotton is a soft, fluffy staple fiber.", "700-1300 mm",
    "Cotton is a soft, fluffy staple fiber that grows in a boll, or protective case, around the seeds of cotton plants of the genus Gossypium in the mallow family Malvaceae.")
  const Maize := Crop("Maize", "/assets/corn.jpeg", "Maize is also known as corn.", "500-800 mm",
    "Maize, also known as corn, is a cereal grain first domesticated by indigenous peoples in southern Mexico about 10,000 years ago.")
  const Barley := Crop("Barley", "/assets/barley.jpeg", "Barley is a major cereal grain.", "450-650 mm",
    "Barley is a major cereal grain grown in temperate climates globally. It was one of the first cultivated grains, particularly in Eurasia as early as 10,000 years ago.")
  const Millet := Crop("Millet", "/assets/millet.jpeg", "Millet is a group of highly variable small-seeded grasses.", "300-500 mm",
    "Millet is a group of highly variable small-seeded grasses, widely grown around the world as cereal crops or grains for fodder and human food.")

  /** `crops`, in the order the page lists them. */
  function Crops(): (crops: seq<Crop>)
    ensures |crops| == 10
  {
    [Wheat, Rice, Coffee, Tea, Pepper, Sugarcane, Cotton, Maize, Barley, Millet]
  }

  /** The filter value that lets every water requirement through. */
  const AllRequirements := "All"

  /** The `filter` callback of `filteredCrops`. */
  predicate Shown(searchTerm: string, filter: string, crop: Crop) {
    && Contains(ToLower(crop.name), ToLower(searchTerm))
    && (filter == AllRequirements || Contains(crop.waterRequirement, filter))
  }

  /** `Shown` as the callback value handed to `filter`. */
  function ShownFor(searchTerm: string, filter: string): Crop -> bool {
    crop => Shown(searchTerm, filter, crop)
  }

  /**
    `filteredCrops`: a crop stays exactly when its lower-cased name contains the lower-cased search
    term and the filter is "All" or occurs in its water requirement.
  */
  function FilteredCrops(crops: seq<Crop>, searchTerm: string, filter: string): (shown: seq<Crop>)
    ensures |shown| <= |crops|
    ensures forall c :: c in shown ==>
              && c in crops
              && Contains(ToLower(c.name), ToLower(searchTerm))
              && (filter == "All" || Contains(c.waterRequirement, filter))
    ensures forall c :: c in crops
              && Contains(ToLower(c.name), ToLower(searchTerm))
              && (filter == "All" || Contains(c.waterRequirement, filter))
              ==> c in shown
  {
    FilterMembers(ShownFor(searchTerm, filter), crops);
    Filter(ShownFor(searchTerm, filter), crops)
  }

  /** The cards keep the order of `crops`: the result is a subsequence of the list. */
  lemma FilteredInOrder(crops: seq<Crop>, searchTerm: string, filter: string) returns (idx: seq<int>)
    ensures Embeds(FilteredCrops(crops, searchTerm, filter), crops, idx)
  {
    idx := FilterEmbeds(ShownFor(searchTerm, filter), crops);
  }

  /** With the initial empty search and "All", every crop is shown (all ten of `Crops()`). */
  lemma EmptySearchShowsAll(crops: seq<Crop>)
    ensures FilteredCrops(crops, "", "All") == crops
  {
    forall c | c in crops ensures ShownFor("", "All")(c) {
      assert ToLower("") == "";
    }
    FilterKeepsAll(ShownFor("", "All"), crops);
  }

  /** Applying the same search and filter to the cards already shown changes nothing. */
  lemma FilteringIdempotent(crops: seq<Crop>, searchTerm: string, filter: string)
    ensures FilteredCrops(FilteredCrops(crops, searchTerm, filter), searchTerm, filter)
            == FilteredCrops(crops, searchTerm, filter)
  {
    FilterIdempotent(ShownFor(searchTerm, filter), crops);
  }

  /** The search ignores case: a term and its lower-cased form show the same cards. */
  lemma SearchIgnoresCase(crops: seq<Crop>, searchTerm: string, filter: string)
    ensures FilteredCrops(crops, ToLower(searchTerm), filter) == FilteredCrops(crops, searchTerm, filter)
  {
    ToLowerIdempotent(searchTerm);
    FilterAgree(ShownFor(ToLower(searchTerm), filter), ShownFor(searchTerm, filter), crops);
  }

  /** Choosing "1500-2500 mm" leaves Coffee and Sugarcane, in list order. */
  lemma HighWaterCrops(crops: seq<Crop>)
    requires crops == Crops()
    ensures FilteredCrops(crops, "", "1500-2500 mm") == [Coffee, Sugarcane]
  {
    var p := ShownFor("", "1500-2500 mm");
    var head := [Wheat, Rice, Coffee, Tea, Pepper];
    var tail := [Sugarcane, Cotton, Maize, Barley, Millet];
    HighWaterHeadTests(p);
    HighWaterTailTests(p);
    HighWaterHead(p, head);
    HighWaterTail(p, tail);
    CropsHalves(crops, head, tail);
    FilterConcat(p, head, tail);
  }

  lemma CropsHalves(crops: seq<Crop>, head: seq<Crop>, tail: seq<Crop>)
    requires crops == Crops()
    requires head == [Wheat, Rice, Coffee, Tea, Pepper]
    requires tail == [Sugarcane, Cotton, Maize, Barley, Millet]
    ensures crops == head + tail
  {
    assert |crops| == |head + tail| == 10;
    forall i | 0 <= i < 10 ensures crops[i] == (head + tail)[i] {
    }
  }

  /** The callback on the first five crops for "1500-2500 mm": only Coffee's requirement contains it. */
  lemma HighWaterHeadTests(p: Crop -> bool)
    requires p == ShownFor("", "1500-2500 mm")
    ensures !p(Wheat) && !p(Rice) && p(Coffee) && !p(Tea) && !p(Pepper)
  {
    assert ToLower("") == "";
    assert "1200-1400 mm"[..12][1] != "1500-2500 mm"[1];
    assert "2000-3000 mm"[..12][0] != "1500-2500 mm"[0];
  }

  /** The callback on the last five crops: only Sugarcane's requirement contains it. */
  lemma HighWaterTailTests(p: Crop -> bool)
    requires p == ShownFor("", "1500-2500 mm")
    ensures p(Sugarcane) && !p(Cotton) && !p(Maize) && !p(Barley) && !p(Millet)
  {
    assert ToLower("") == "";
  }

  lemma HighWaterHead(p: Crop -> bool, head: seq<Crop>)
    requires !p(Wheat) && !p(Rice) && p(Coffee) && !p(Tea) && !p(Pepper)
    requires head == [Wheat, Rice, Coffee, Tea, Pepper]
    ensures Filter(p, head) == [Coffee]
  {
    FilterCons(p, Pepper, []);
    FilterCons(p, Tea, [Pepper]);
    FilterCons(p, Coffee, [Tea, Pepper]);
    FilterCons(p, Rice, [Coffee, Tea, Pepper]);
    FilterCons(p, Wheat, [Rice, Coffee, Tea, Pepper]);
  }

  lemma HighWaterTail(p: Crop -> bool, tail: seq<Crop>)
    requires p(Sugarcane) && !p(Cotton) && !p(Maize) && !p(Barley) && !p(Millet)
    requires tail == [Sugarcane, Cotton, Maize, Barley, Millet]
    ensures Filter(p, tail) == [Sugarcane]
  {
    FilterCons(p, Millet, []);
    FilterCons(p, Barley, [Millet]);
    FilterCons(p, Maize, [Barley, Millet]);
    FilterCons(p, Cotton, [Maize, Barley, Millet]);
    FilterCons(p, Sugarcane, [Cotton, Maize, Barley, Millet]);
  }

  /** The page state: the crop in the popup, whether the popup is open, the search and the filter. */
  class CropsPage {
    const crops: seq<Crop>
    var selectedCrop: Option<Crop>
    var isPopupVisible: bool
    var searchTerm: string
    var filter: string

    /** The handlers open and close the popup together with the selection. */
    predicate Valid()
      reads this
    {
      isPopupVisible <==> selectedCrop.Some?
    }

    /** `isPopupVisible && selectedCrop`: the condition under which the popup is rendered. */
    predicate PopupShown()
      reads this
      ensures PopupShown() ==> selectedCrop.Some?
      ensures Valid() ==> (PopupShown() <==> isPopupVisible)
    {
      isPopupVisible && selectedCrop.Some?
    }

    constructor ()
      ensures Valid() && !PopupShown()
      ensures crops == Crops()
      ensures selectedCrop == None && !isPopupVisible && searchTerm == "" && filter == "All"
    {
      crops := Crops();
      selectedCrop, isPopupVisible := None, false;
      searchTerm, filter := "", "All";
    }

    /** `handleCardClick(crop)`: the crop is selected and the popup opens on it. */
    method HandleCardClick(crop: Crop)
      modifies this
      ensures Valid() && PopupShown()
      ensures selectedCrop == Some(crop) && isPopupVisible
      ensures searchTerm == old(searchTerm) && filter == old(filter)
    {
      selectedCrop := Some(crop);
      isPopupVisible := true;
    }

    /** `handleClosePopup()`: the popup closes and the selection is cleared. */
    method HandleClosePopup()
      modifies this
      ensures Valid() && !PopupShown()
      ensures !isPopupVisible && selectedCrop == None
      ensures searchTerm == old(searchTerm) && filter == old(filter)
    {
      isPopupVisible := false;
      selectedCrop := None;
    }

    /** `handleSearchChange`: a new search term. */
    method HandleSearchChange(value: string)
      modifies this
      ensures searchTerm == value && filter == old(filter)
      ensures selectedCrop == old(selectedCrop) && isPopupVisible == old(isPopupVisible)
      ensures old(Valid()) ==> Valid()
    {
      searchTerm := value;
    }

    /** `handleFilterChange`: a new water-requirement filter. */
    method HandleFilterChange(value: string)
      modifies this
      ensures filter == value && searchTerm == old(searchTerm)
      ensures selectedCrop == old(selectedCrop) && isPopupVisible == old(isPopupVisible)
      ensures old(Valid()) ==> Valid()
    {
      filter := value;
    }
  }
}
