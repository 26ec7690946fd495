/**
 * Step 1 of the booking wizard: choose a city, then one of that city's
 * neighborhoods, then continue to the date/time step carrying both.
 */
module SelectLocation {
  import opened Common

  /** The serviceable cities, in the order the city selector lists them. */
  const Cities: seq<string> := ["Florianópolis", "São José", "Palhoça", "Biguaçu"]

  /** The neighborhoods served in each city. */
  const Neighborhoods: map<string, seq<string>> := map[
    "Florianópolis" := ["Centro", "Trindade", "Lagoa da Conceição", "Canasvieiras", "Ingleses", "Jurerê"],
    "São José" := ["Centro", "Campinas", "Kobrasol", "Praia Comprida", "Forquilhinha"],
    "Palhoça" := ["Centro", "Pedra Branca", "Pagani", "Enseada de Brito"],
    "Biguaçu" := ["Centro", "Tijuquinhas", "São Miguel", "Sorocaba"]
  ]

  /** The state handed to the date/time step. */
  datatype LocationDraft = LocationDraft(city: string, neighborhood: string)

  /** The options of the neighborhood selector for `city`. */
  function NeighborhoodOptions(city: string): (r: seq<string>)
    requires city in Cities
    ensures |r| > 0 && "" !in r
    ensures r == Neighborhoods[city]
  {
    Neighborhoods[city]
  }

  /** Every listed city has a neighborhood list, every list is non-empty, and no other city has one. */
  lemma TableIsComplete()
    ensures forall c :: c in Cities ==> c in Neighborhoods && |Neighborhoods[c]| > 0
    ensures forall c :: c in Neighborhoods ==> c in Cities
    ensures forall i, j :: 0 <= i < j < |Cities| ==> Cities[i] != Cities[j]
  {
  }

  class LocationStep {
    var selectedCity: string
    var selectedNeighborhood: string

    /** The city is empty or listed; the neighborhood is empty or one of the chosen city's. */
    ghost predicate Valid()
      reads this
    {
      (selectedCity == "" || selectedCity in Cities)
      && (selectedNeighborhood == ""
          || (selectedCity in Cities && selectedNeighborhood in NeighborhoodOptions(selectedCity)))
    }

    constructor ()
      ensures Valid() && selectedCity == "" && selectedNeighborhood == ""
    {
      selectedCity := "";
      selectedNeighborhood := "";
    }

    /** The neighborhood selector is rendered only once a city is chosen. */
    predicate ShowsNeighborhoodSelect()
      reads this
    {
      selectedCity != ""
    }

    /** The continue button is rendered only once both fields are chosen. */
    predicate ShowsContinue()
      reads this
    {
      selectedCity != "" && selectedNeighborhood != ""
    }

    /** The city selector offers the listed cities; choosing one clears the neighborhood. */
    method ChooseCity(value: string)
      requires value in Cities
      modifies this
      ensures Valid()
      ensures selectedCity == value && selectedNeighborhood == ""
      ensures ShowsNeighborhoodSelect() && !ShowsContinue()
    {
      selectedCity := value;
      selectedNeighborhood := "";
    }

    /** The neighborhood selector, shown once a city is chosen, offers that city's list. */
    method ChooseNeighborhood(value: string)
      requires Valid() && ShowsNeighborhoodSelect()
      requires value in NeighborhoodOptions(selectedCity)
      modifies this
      ensures Valid()
      ensures selectedNeighborhood == value && selectedCity == old(selectedCity)
      ensures ShowsContinue()
    {
      selectedNeighborhood := value;
    }

    /** `handleContinue`: navigate with both selections, only when both are set. */
    method HandleContinue() returns (nav: Option<Navigation<LocationDraft>>)
      requires Valid()
      ensures nav.Some? <==> ShowsContinue()
      ensures nav.Some? ==>
        nav.value == Navigation("/agendar/data-hora", LocationDraft(selectedCity, selectedNeighborhood))
      ensures nav.Some? ==>
        nav.value.state.city in Cities && nav.value.state.neighborhood in Neighborhoods[nav.value.state.city]
    {
      if selectedCity != "" && selectedNeighborhood != "" {
        nav := Some(Navigation("/agendar/data-hora", LocationDraft(selectedCity, selectedNeighborhood)));
      } else {
        nav := None;
      }
    }
  }
}
