/** `PetListComponent`: the paginated, searchable list of pets and the pet
    whose details are open. Its signals are fields; each handler is proved to
    move them as the matching `Pagination` transition does. */
module PetList {
  import opened Common
  import opened Pagination

  datatype Pet = Pet(id: int, nome: string, especie: string, idade: int, raca: string, urlFoto: Option<string>)

  class PetListComponent {
    var pets: seq<Pet>
    var loading: bool
    var page: nat
    var totalPages: Option<int>
    var searchTerm: string
    var searchValue: string
    var selectedPet: Option<Pet>

    /** The pagination state held by the signals. */
    function Listing(): Pagination.Listing<Pet>
      reads this
    {
      Pagination.Listing(pets, loading, page, totalPages, searchTerm)
    }

    constructor ()
      ensures Listing() == Initial() && searchValue == "" && selectedPet == None
    {
      pets := [];
      loading := false;
      page := 0;
      totalPages := None;
      searchTerm := "";
      searchValue := "";
      selectedPet := None;
    }

    /** `loadPets`: `request` is the `petService.list` call it makes, if any. */
    method LoadPets() returns (request: Option<PageRequest>)
      modifies this
      ensures Transition(Listing(), request) == Load(old(Listing()))
      ensures searchValue == old(searchValue) && selectedPet == old(selectedPet)
    {
      if loading {
        return None;
      }
      loading := true;
      request := Some(PageRequest(page, PageSize, searchTerm));
    }

    /** The success callback of `loadPets`. */
    method OnLoadSucceeded(res: PageResponse<Pet>)
      modifies this
      ensures Listing() == LoadSucceeded(old(Listing()), res)
      ensures searchValue == old(searchValue) && selectedPet == old(selectedPet)
    {
      var current := pets;
      pets := current + res.content;
      totalPages := Some(res.pageCount);
      loading := false;
    }

    /** The error callback of `loadPets`; the re-login it starts on a 401 is
        not part of this model. */
    method OnLoadFailed()
      modifies this
      ensures Listing() == LoadFailed(old(Listing()))
      ensures searchValue == old(searchValue) && selectedPet == old(selectedPet)
    {
      loading := false;
    }

    /** `loadMore`. */
    method LoadMore() returns (request: Option<PageRequest>)
      modifies this
      ensures Transition(Listing(), request) == Pagination.LoadMore(old(Listing()))
      ensures searchValue == old(searchValue) && selectedPet == old(selectedPet)
    {
      if !HasMore(Listing()) || loading {
        return None;
      }
      page := page + 1;
      request := LoadPets();
    }

    /** `onSearchImmediate`: the search button, using the bound search box. */
    method OnSearchImmediate() returns (request: Option<PageRequest>)
      modifies this
      ensures Transition(Listing(), request) == SearchImmediate(old(Listing()), old(searchValue))
      ensures searchValue == old(searchValue) && selectedPet == old(selectedPet)
    {
      var value := searchValue;
      ghost var restarted := Restart(Listing().(searchTerm := value), value);
      searchTerm := value;
      page := 0;
      if Trim(value) != "" {
        pets := [];
      }
      assert Listing() == restarted;
      request := LoadPets();
    }

    /** `onSearchChange`: records the term; the debounced reload is
        `OnSearchDebounced`. */
    method OnSearchChange(value: string)
      modifies this
      ensures Listing() == SearchChange(old(Listing()), value)
      ensures searchValue == old(searchValue) && selectedPet == old(selectedPet)
    {
      searchTerm := value;
    }

    /** The subscriber of the debounced search stream, given the term it
        delivers. */
    method OnSearchDebounced(term: string) returns (request: Option<PageRequest>)
      modifies this
      ensures Transition(Listing(), request) == SearchDebounced(old(Listing()), term)
      ensures searchValue == old(searchValue) && selectedPet == old(selectedPet)
    {
      ghost var restarted := Restart(Listing(), term);
      page := 0;
      if Trim(term) != "" {
        pets := [];
      }
      assert Listing() == restarted;
      request := LoadPets();
    }

    method OpenDetails(pet: Pet)
      modifies this
      ensures selectedPet == Some(pet)
      ensures Listing() == old(Listing()) && searchValue == old(searchValue)
    {
      selectedPet := Some(pet);
    }

    method CloseDetails()
      modifies this
      ensures selectedPet == None
      ensures Listing() == old(Listing()) && searchValue == old(searchValue)
    {
      selectedPet := None;
    }
  }
}
