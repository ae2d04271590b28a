/** `TutorListComponent`: the paginated tutor list, the create and edit forms
    with their photo, the detail panel with the tutor's pets, and linking a
    pet to the selected tutor. Requests the component sends are returned as
    values; the answers arrive through the `On…` methods. */
module TutorList {
  import opened Common
  import opened Pagination
  import opened PetList

  /** A tutor as the component reads it. `fotoUrl` stands for `foto?.url`
      and `pets` for the optional `pets` of the detail answer. */
  datatype Tutor = Tutor(id: int, nome: string, telefone: string, endereco: string,
                         fotoUrl: Option<string>, pets: Option<seq<Pet>>)

  /** The `File` the component checks: its MIME type and its size in bytes. */
  datatype File = File(mimeType: string, size: int)

  /** The fields of the create form, and of the edit form besides its id. */
  datatype TutorForm = TutorForm(nome: string, telefone: string, endereco: string,
                                 file: Option<File>, previewUrl: string)

  datatype EditTutorForm = EditTutorForm(id: int, fields: TutorForm)

  /** The body of `tutorService.create` and `tutorService.update`. */
  datatype TutorPayload = TutorPayload(nome: string, telefone: string, endereco: string)

  /** The save the component starts: the payload, the tutor id for an
      update, and the photo to upload after it. */
  datatype SaveCall = Create(payload: TutorPayload, photo: Option<File>)
                    | Update(id: int, payload: TutorPayload, photo: Option<File>)

  /** `tutorService.vincularPet` and `desvincularPet` arguments. */
  datatype LinkCall = LinkCall(tutorId: int, petId: int)

  const BlankForm := TutorForm("", "", "", None, "")
  const BlankEditForm := EditTutorForm(0, BlankForm)

  const ImagePrefix := "image/"
  const MaxPhotoBytes := 5 * 1024 * 1024
  const NotAnImageMessage := "Por favor, selecione apenas arquivos de imagem."
  const TooLargeMessage := "O arquivo deve ter no máximo 5MB."

  /** Page size of the list of pets offered for linking. */
  const LinkablePetsPageSize := 100

  /** `processFile`'s checks: the alert it raises, or `None` when it goes on
      to read the file. The type is checked before the size. */
  function PhotoAlert(file: File): Option<string> {
    if !(ImagePrefix <= file.mimeType) then Some(NotAnImageMessage)
    else if file.size > MaxPhotoBytes then Some(TooLargeMessage)
    else None
  }

  /** A file is read exactly when its type starts with `image/` and it has
      at most 5 MiB; a file failing both checks is reported as not being an
      image. */
  lemma PhotoAlertAccepts(file: File)
    ensures PhotoAlert(file).None? <==>
      |file.mimeType| >= 6 && file.mimeType[..6] == "image/" && file.size <= 5242880
    ensures !(ImagePrefix <= file.mimeType) ==> PhotoAlert(file) == Some(NotAnImageMessage)
  {
  }

  /** What the `FileReader` callback stores: the file and its data URL. */
  function WithPhoto(form: TutorForm, file: File, previewUrl: string): TutorForm {
    form.(file := Some(file), previewUrl := previewUrl)
  }

  /** `removeNewTutorImage`/`removeEditTutorImage`. */
  function WithoutPhoto(form: TutorForm): TutorForm {
    form.(file := None, previewUrl := "")
  }

  /** Removing a photo clears only the photo fields, and undoes attaching one:
      the typed fields survive both. */
  lemma PhotoRoundTrip(form: TutorForm, file: File, previewUrl: string)
    ensures WithoutPhoto(WithPhoto(form, file, previewUrl)) == WithoutPhoto(form)
    ensures form.file.None? && form.previewUrl == "" ==> WithoutPhoto(WithPhoto(form, file, previewUrl)) == form
    ensures var r := WithoutPhoto(form);
      r.nome == form.nome && r.telefone == form.telefone && r.endereco == form.endereco
  {
  }

  /** The validation and trimming of `createTutor`/`updateTutor`: nothing is
      sent when a field is blank after trimming. */
  function Payload(form: TutorForm): Option<TutorPayload> {
    if Trim(form.nome) == "" || Trim(form.telefone) == "" || Trim(form.endereco) == "" then None
    else Some(TutorPayload(Trim(form.nome), Trim(form.telefone), Trim(form.endereco)))
  }

  predicate Blank(s: string) {
    forall i :: 0 <= i < |s| ==> IsJsWhitespace(s[i])
  }

  /** One field passes `!field.trim()` exactly when it is not blank, and is
      then sent without white space at either end. */
  lemma FieldValidation(s: string)
    ensures Trim(s) == "" <==> Blank(s)
    ensures Trimmed(Trim(s))
  {
    TrimEmptyIffBlank(s);
    TrimTrims(s);
  }

  /** A form is refused exactly when one of its three fields is empty or all
      white space, and an accepted form sends its fields without white space
      at either end. */
  lemma PayloadValidation(form: TutorForm)
    ensures Payload(form).None? <==> Blank(form.nome) || Blank(form.telefone) || Blank(form.endereco)
    ensures Payload(form).Some? ==>
      var p := Payload(form).value;
      p.nome != "" && p.telefone != "" && p.endereco != ""
      && Trimmed(p.nome) && Trimmed(p.telefone) && Trimmed(p.endereco)
  {
    FieldValidation(form.nome);
    FieldValidation(form.telefone);
    FieldValidation(form.endereco);
  }

  /** Saving a form that already holds the trimmed fields sends the same
      payload again. */
  lemma PayloadStable(form: TutorForm)
    requires Payload(form).Some?
    ensures var p := Payload(form).value;
      Payload(form.(nome := p.nome, telefone := p.telefone, endereco := p.endereco)) == Payload(form)
  {
    TrimTrims(form.nome);
    TrimTrims(form.telefone);
    TrimTrims(form.endereco);
  }

  /** `openEditTutorModal`: the tutor's fields, no new file, and the stored
      photo as preview when it has a non-empty URL. */
  function EditFormFor(tutor: Tutor): EditTutorForm {
    EditTutorForm(tutor.id, TutorForm(tutor.nome, tutor.telefone, tutor.endereco, None,
                                      if Truthy(tutor.fotoUrl) then tutor.fotoUrl.value else ""))
  }

  /** Saving an edit form opened for a tutor, untouched, sends an update of
      that tutor with its own fields trimmed and no photo. */
  lemma EditUntouchedSavesTutor(tutor: Tutor)
    requires Trim(tutor.nome) != "" && Trim(tutor.telefone) != "" && Trim(tutor.endereco) != ""
    ensures var form := EditFormFor(tutor);
      form.id == tutor.id && form.fields.file.None?
      && Payload(form.fields) == Some(TutorPayload(Trim(tutor.nome), Trim(tutor.telefone), Trim(tutor.endereco)))
  {
  }

  /** `vincularPet`'s guard: both ids must be truthy numbers, so a missing
      tutor, a missing pet and the id 0 all stop it. */
  function LinkFor(selected: Option<Tutor>, petId: Option<int>): Option<LinkCall> {
    var tutorId := if selected.Some? then selected.value.id else 0;
    if tutorId == 0 || petId.None? || petId.value == 0 then None
    else Some(LinkCall(tutorId, petId.value))
  }

  lemma LinkGuard(selected: Option<Tutor>, petId: Option<int>)
    ensures LinkFor(selected, petId).Some? <==>
      selected.Some? && selected.value.id != 0 && petId.Some? && petId.value != 0
    ensures LinkFor(selected, petId).Some? ==>
      LinkFor(selected, petId).value == LinkCall(selected.value.id, petId.value)
  {
  }

  /** What `closeDetails` and the detail callbacks leave in the pets panel:
      the answer's pets when it has some, otherwise none. */
  function LinkedPets(details: Tutor): seq<Pet> {
    if details.pets.Some? && |details.pets.value| > 0 then details.pets.value else []
  }

  /** The list after a successful save: emptied, back on the first page, and
      reloaded. */
  function ReloadFirstPage<T>(l: Listing<T>): Transition<T> {
    Load(l.(page := 0, items := []))
  }

  /** After a save, when no load is in flight, the list shows exactly the
      first page of the reload; when one is in flight the reload is not sent
      and the earlier answer fills the emptied list. */
  lemma ReloadAfterSave<T>(l: Listing<T>, res: PageResponse<T>)
    ensures !l.loading ==> ReloadFirstPage(l).request == Some(PageRequest(0, PageSize, l.searchTerm))
    ensures LoadSucceeded(ReloadFirstPage(l).next, res).items == res.content
    ensures l.loading ==> ReloadFirstPage(l).request.None?
  {
  }

  /** Everything the screen holds besides the list and the search box: the
      detail panel, the three modals, the two save flags, the two forms and
      the linking choice. */
  datatype PanelState = PanelState(
    selectedTutor: Option<Tutor>,
    petsVinculados: seq<Pet>,
    showCreateModal: bool,
    showEditModal: bool,
    showVincularModal: bool,
    createLoading: bool,
    editLoading: bool,
    newTutor: TutorForm,
    editTutor: EditTutorForm,
    petsDisponiveis: seq<Pet>,
    petSelecionadoId: Option<int>)

  /** Closed modals, blank forms, nothing selected. */
  const InitialPanels := PanelState(None, [], false, false, false, false, false, BlankForm, BlankEditForm, [], None)

  class TutorListComponent {
    var tutores: seq<Tutor>
    var loading: bool
    var page: nat
    var totalPages: Option<int>
    var searchTerm: string
    var searchValue: string
    var selectedTutor: Option<Tutor>
    var petsVinculados: seq<Pet>
    var showCreateModal: bool
    var showEditModal: bool
    var showVincularModal: bool
    var createLoading: bool
    var editLoading: bool
    var newTutor: TutorForm
    var editTutor: EditTutorForm
    var petsDisponiveis: seq<Pet>
    var petSelecionadoId: Option<int>

    /** The pagination state held by the signals. */
    function Listing(): Pagination.Listing<Tutor>
      reads this
    {
      Pagination.Listing(tutores, loading, page, totalPages, searchTerm)
    }

    /** The rest of the signals. */
    function Panels(): PanelState
      reads this
    {
      PanelState(selectedTutor, petsVinculados, showCreateModal, showEditModal, showVincularModal,
                 createLoading, editLoading, newTutor, editTutor, petsDisponiveis, petSelecionadoId)
    }

    constructor ()
      ensures Listing() == Initial() && searchValue == "" && Panels() == InitialPanels
    {
      tutores := [];
      loading := false;
      page := 0;
      totalPages := None;
      searchTerm := "";
      searchValue := "";
      selectedTutor := None;
      petsVinculados := [];
      showCreateModal := false;
      showEditModal := false;
      showVincularModal := false;
      createLoading := false;
      editLoading := false;
      newTutor := BlankForm;
      editTutor := BlankEditForm;
      petsDisponiveis := [];
      petSelecionadoId := None;
    }

    /** `loadTutores`: `request` is the `tutorService.list` call, if any. */
    method LoadTutores() returns (request: Option<PageRequest>)
      modifies this
      ensures Transition(Listing(), request) == Load(old(Listing()))
      ensures Panels() == old(Panels()) && searchValue == old(searchValue)
    {
      if loading {
        return None;
      }
      loading := true;
      request := Some(PageRequest(page, PageSize, searchTerm));
    }

    method OnLoadSucceeded(res: PageResponse<Tutor>)
      modifies this
      ensures Listing() == LoadSucceeded(old(Listing()), res)
      ensures Panels() == old(Panels()) && searchValue == old(searchValue)
    {
      var current := tutores;
      tutores := current + res.content;
      totalPages := Some(res.pageCount);
      loading := false;
    }

    /** The error callback of `loadTutores`; the re-login it starts on a 401
        is not part of this model. */
    method OnLoadFailed()
      modifies this
      ensures Listing() == LoadFailed(old(Listing()))
      ensures Panels() == old(Panels()) && searchValue == old(searchValue)
    {
      loading := false;
    }

    method LoadMore() returns (request: Option<PageRequest>)
      modifies this
      ensures Transition(Listing(), request) == Pagination.LoadMore(old(Listing()))
      ensures Panels() == old(Panels()) && searchValue == old(searchValue)
    {
      if !HasMore(Listing()) || loading {
        return None;
      }
      page := page + 1;
      request := LoadTutores();
    }

    method OnSearchImmediate() returns (request: Option<PageRequest>)
      modifies this
      ensures Transition(Listing(), request) == SearchImmediate(old(Listing()), old(searchValue))
      ensures Panels() == old(Panels()) && searchValue == old(searchValue)
    {
      var value := searchValue;
      searchTerm := value;
      // the rest is the debounced subscriber's body, for the search box's value
      request := OnSearchDebounced(value);
    }

    method OnSearchChange(value: string)
      modifies this
      ensures Listing() == SearchChange(old(Listing()), value)
      ensures Panels() == old(Panels()) && searchValue == old(searchValue)
    {
      searchTerm := value;
    }

    method OnSearchDebounced(term: string) returns (request: Option<PageRequest>)
      modifies this
      ensures Transition(Listing(), request) == SearchDebounced(old(Listing()), term)
      ensures Panels() == old(Panels()) && searchValue == old(searchValue)
    {
      ghost var restarted := Restart(Listing(), term);
      page := 0;
      if Trim(term) != "" {
        tutores := [];
      }
      assert Listing() == restarted;
      request := LoadTutores();
    }

    /** `openDetails`: the id it asks `getById` for; the panel changes when
        the answer arrives. */
    method OpenDetails(tutor: Tutor) returns (detailsOf: int)
      ensures detailsOf == tutor.id
    {
      detailsOf := tutor.id;
    }

    /** The answer to `openDetails`' `getById`. */
    method OnDetailsLoaded(details: Tutor)
      modifies this
      ensures Panels() == old(Panels()).(selectedTutor := Some(details), petsVinculados := LinkedPets(details))
      ensures Listing() == old(Listing()) && searchValue == old(searchValue)
    {
      selectedTutor := Some(details);
      if details.pets.Some? && |details.pets.value| > 0 {
        petsVinculados := details.pets.value;
      } else {
        petsVinculados := [];
      }
    }

    /** `openDetails` when `getById` fails: the row's own tutor, no pets. */
    method OnDetailsFailed(tutor: Tutor)
      modifies this
      ensures Panels() == old(Panels()).(selectedTutor := Some(tutor), petsVinculados := [])
      ensures Listing() == old(Listing()) && searchValue == old(searchValue)
    {
      selectedTutor := Some(tutor);
      petsVinculados := [];
    }

    method CloseDetails()
      modifies this
      ensures Panels() == old(Panels()).(selectedTutor := None, petsVinculados := [])
      ensures Listing() == old(Listing()) && searchValue == old(searchValue)
    {
      selectedTutor := None;
      petsVinculados := [];
    }

    /** `processFile`: `alert` is the message shown; with none, the file is
        handed to the reader and the form changes only in `OnPhotoRead`. */
    method ProcessFile(file: File) returns (alert: Option<string>)
      ensures alert == PhotoAlert(file)
      ensures alert.None? <==> ImagePrefix <= file.mimeType && file.size <= MaxPhotoBytes
    {
      if !(ImagePrefix <= file.mimeType) {
        return Some(NotAnImageMessage);
      }
      if file.size > MaxPhotoBytes {
        return Some(TooLargeMessage);
      }
      alert := None;
    }

    /** The `FileReader` `onload` callback of an accepted file. */
    method OnPhotoRead(file: File, previewUrl: string, isEdit: bool)
      modifies this
      ensures isEdit ==>
        Panels() == old(Panels()).(editTutor := old(editTutor).(fields := WithPhoto(old(editTutor).fields, file, previewUrl)))
      ensures !isEdit ==> Panels() == old(Panels()).(newTutor := WithPhoto(old(newTutor), file, previewUrl))
      ensures Listing() == old(Listing()) && searchValue == old(searchValue)
    {
      if isEdit {
        editTutor := editTutor.(fields := WithPhoto(editTutor.fields, file, previewUrl));
      } else {
        newTutor := WithPhoto(newTutor, file, previewUrl);
      }
    }

    method RemoveNewTutorImage()
      modifies this
      ensures Panels() == old(Panels()).(newTutor := WithoutPhoto(old(newTutor)))
      ensures Listing() == old(Listing()) && searchValue == old(searchValue)
    {
      newTutor := newTutor.(file := None, previewUrl := "");
    }

    method RemoveEditTutorImage()
      modifies this
      ensures Panels() == old(Panels()).(editTutor := old(editTutor).(fields := WithoutPhoto(old(editTutor).fields)))
      ensures Listing() == old(Listing()) && searchValue == old(searchValue)
    {
      editTutor := editTutor.(fields := editTutor.fields.(file := None, previewUrl := ""));
    }

    method OpenCreateTutorModal()
      modifies this
      ensures Panels() == old(Panels()).(newTutor := BlankForm, showCreateModal := true)
      ensures Listing() == old(Listing()) && searchValue == old(searchValue)
    {
      newTutor := BlankForm;
      showCreateModal := true;
    }

    method CloseCreateModal()
      modifies this
      ensures Panels() == old(Panels()).(newTutor := BlankForm, showCreateModal := false)
      ensures Listing() == old(Listing()) && searchValue == old(searchValue)
    {
      showCreateModal := false;
      newTutor := BlankForm;
    }

    method OpenEditTutorModal(tutor: Tutor)
      modifies this
      ensures Panels() == old(Panels()).(editTutor := EditFormFor(tutor), showEditModal := true)
      ensures Listing() == old(Listing()) && searchValue == old(searchValue)
    {
      var preview := "";
      if tutor.fotoUrl.Some? && tutor.fotoUrl.value != "" {
        preview := tutor.fotoUrl.value;
      }
      editTutor := EditTutorForm(tutor.id, TutorForm(tutor.nome, tutor.telefone, tutor.endereco, None, preview));
      showEditModal := true;
    }

    method CloseEditModal()
      modifies this
      ensures Panels() == old(Panels()).(editTutor := BlankEditForm, showEditModal := false)
      ensures Listing() == old(Listing()) && searchValue == old(searchValue)
    {
      showEditModal := false;
      editTutor := BlankEditForm;
    }

    /** `createTutor`: with a valid form, marks the save in progress and sends
        the trimmed fields, then the photo if one was chosen; with an invalid
        one, does nothing. */
    method CreateTutor() returns (call: Option<SaveCall>)
      modifies this
      ensures Payload(old(newTutor)).None? ==> call.None? && Panels() == old(Panels())
      ensures Payload(old(newTutor)).Some? ==>
        call == Some(Create(Payload(old(newTutor)).value, old(newTutor).file))
        && Panels() == old(Panels()).(createLoading := true)
      ensures Listing() == old(Listing()) && searchValue == old(searchValue)
    {
      var form := newTutor;
      if Trim(form.nome) == "" || Trim(form.telefone) == "" || Trim(form.endereco) == "" {
        assert Payload(form).None?;
        return None;
      }
      ghost var before := Panels();
      createLoading := true;
      assert Panels() == before.(createLoading := true);
      var payload := TutorPayload(Trim(form.nome), Trim(form.telefone), Trim(form.endereco));
      var file := form.file;
      call := Some(Create(payload, file));
    }

    /** `updateTutor`: as `createTutor`, for the tutor the edit form holds. */
    method UpdateTutor() returns (call: Option<SaveCall>)
      modifies this
      ensures Payload(old(editTutor).fields).None? ==> call.None? && Panels() == old(Panels())
      ensures Payload(old(editTutor).fields).Some? ==>
        call == Some(Update(old(editTutor).id, Payload(old(editTutor).fields).value, old(editTutor).fields.file))
        && Panels() == old(Panels()).(editLoading := true)
      ensures Listing() == old(Listing()) && searchValue == old(searchValue)
    {
      var form := editTutor.fields;
      if Trim(form.nome) == "" || Trim(form.telefone) == "" || Trim(form.endereco) == "" {
        assert Payload(form).None?;
        return None;
      }
      ghost var before := Panels();
      editLoading := true;
      assert Panels() == before.(editLoading := true);
      var payload := TutorPayload(Trim(form.nome), Trim(form.telefone), Trim(form.endereco));
      var file := form.file;
      var tutorId := editTutor.id;
      call := Some(Update(tutorId, payload, file));
    }

    /** The success callback of a create: the modal closes and the list is
        emptied and reloaded from the first page. */
    method OnCreateSucceeded() returns (request: Option<PageRequest>)
      modifies this
      ensures Panels() == old(Panels()).(createLoading := false, showCreateModal := false, newTutor := BlankForm)
      ensures Transition(Listing(), request) == ReloadFirstPage(old(Listing()))
      ensures searchValue == old(searchValue)
    {
      createLoading := false;
      CloseCreateModal();
      page := 0;
      tutores := [];
      request := LoadTutores();
    }

    /** The error callback of a create: the save flag drops, and nothing
        else changes. */
    method OnCreateFailed()
      modifies this
      ensures Panels() == old(Panels()).(createLoading := false)
      ensures Listing() == old(Listing()) && searchValue == old(searchValue)
    {
      createLoading := false;
    }

    method OnUpdateSucceeded() returns (request: Option<PageRequest>)
      modifies this
      ensures Panels() == old(Panels()).(editLoading := false, showEditModal := false, editTutor := BlankEditForm)
      ensures Transition(Listing(), request) == ReloadFirstPage(old(Listing()))
      ensures searchValue == old(searchValue)
    {
      editLoading := false;
      CloseEditModal();
      page := 0;
      tutores := [];
      request := LoadTutores();
    }

    method OnUpdateFailed()
      modifies this
      ensures Panels() == old(Panels()).(editLoading := false)
      ensures Listing() == old(Listing()) && searchValue == old(searchValue)
    {
      editLoading := false;
    }

    /** `openVincularModal`: the first hundred pets, unfiltered, are asked
        for; the modal opens when they arrive. */
    method OpenVincularModal() returns (request: PageRequest)
      ensures request == PageRequest(0, LinkablePetsPageSize, "")
    {
      request := PageRequest(0, LinkablePetsPageSize, "");
    }

    /** The answer to `openVincularModal`'s request for pets to offer. */
    method OnLinkablePetsLoaded(pets: seq<Pet>)
      modifies this
      ensures Panels() == old(Panels()).(petsDisponiveis := pets, petSelecionadoId := None, showVincularModal := true)
      ensures Listing() == old(Listing()) && searchValue == old(searchValue)
    {
      petsDisponiveis := pets;
      petSelecionadoId := None;
      showVincularModal := true;
    }

    method CloseVincularModal()
      modifies this
      ensures Panels() == old(Panels()).(petsDisponiveis := [], petSelecionadoId := None, showVincularModal := false)
      ensures Listing() == old(Listing()) && searchValue == old(searchValue)
    {
      showVincularModal := false;
      petsDisponiveis := [];
      petSelecionadoId := None;
    }

    /** `vincularPet`: the link request it sends, if its guard lets it. */
    method VincularPet() returns (call: Option<LinkCall>)
      ensures call == LinkFor(selectedTutor, petSelecionadoId)
    {
      var tutorId := if selectedTutor.Some? then selectedTutor.value.id else 0;
      var petId := petSelecionadoId;
      if tutorId == 0 || petId.None? || petId.value == 0 {
        return None;
      }
      call := Some(LinkCall(tutorId, petId.value));
    }

    /** The success callback of `vincularPet`: the modal closes and the
        details of the selected tutor are asked for again. `None` stands for
        a panel closed in the meantime, where the source's `!` assertion does
        not hold and `openDetails` fails on the missing tutor. */
    method OnPetLinked() returns (detailsOf: Option<int>)
      modifies this
      ensures Panels() == old(Panels()).(petsDisponiveis := [], petSelecionadoId := None, showVincularModal := false)
      ensures detailsOf == if selectedTutor.Some? then Some(selectedTutor.value.id) else None
      ensures Listing() == old(Listing()) && searchValue == old(searchValue)
    {
      CloseVincularModal();
      detailsOf := None;
      if selectedTutor.Some? {
        detailsOf := Some(selectedTutor.value.id);
      }
    }

    /** The success callback of `desvincularPet`: the details of the
        selected tutor are asked for again, as after linking. */
    method OnPetUnlinked() returns (detailsOf: Option<int>)
      ensures detailsOf == if selectedTutor.Some? then Some(selectedTutor.value.id) else None
    {
      detailsOf := None;
      if selectedTutor.Some? {
        detailsOf := Some(selectedTutor.value.id);
      }
    }

    /** `desvincularPet`: `confirmed` is the answer to the confirmation
        dialog; nothing is sent without a truthy tutor id and a yes. */
    method DesvincularPet(petId: int, confirmed: bool) returns (call: Option<LinkCall>)
      ensures call.Some? <==> selectedTutor.Some? && selectedTutor.value.id != 0 && confirmed
      ensures call.Some? ==> call.value == LinkCall(selectedTutor.value.id, petId)
    {
      var tutorId := if selectedTutor.Some? then selectedTutor.value.id else 0;
      if tutorId == 0 {
        return None;
      }
      call := None;
      if confirmed {
        call := Some(LinkCall(tutorId, petId));
      }
    }
  }
}
