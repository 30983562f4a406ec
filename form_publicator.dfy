/** The listing-publication form (`FormPublication`): the form's state and
    the handlers that update it — text fields, service check boxes, extra
    services, up to ten images — and the predicates that enable the publish
    button and the upload input. */
module FormPublicator {
  import Text
  import Lists

  /** The text inputs of the form, by their `name` attribute. */
  datatype TextField = Street | Number | PostalCode | Neighborhood | City | State | Description | Price

  /** The `formData` record; `F` is the browser's `File`. */
  datatype FormData<F> = FormData(
    street: string,
    number: string,
    postalCode: string,
    neighborhood: string,
    city: string,
    state: string,
    description: string,
    price: string,
    additionalServices: seq<string>,
    images: seq<F>)

  const MaxImages: nat := 10

  function EmptyForm<F>(): FormData<F> {
    FormData("", "", "", "", "", "", "", "", [], [])
  }

  /** The check boxes of the included services, all ticked at first. */
  function DefaultServices(): map<string, bool> {
    map["baño" := true, "wifi" := true, "amueblado" := true, "cocina" := true, "clima" := true]
  }

  /** The value of one text input. */
  function FieldValue<F>(fd: FormData<F>, f: TextField): string {
    match f
    case Street => fd.street
    case Number => fd.number
    case PostalCode => fd.postalCode
    case Neighborhood => fd.neighborhood
    case City => fd.city
    case State => fd.state
    case Description => fd.description
    case Price => fd.price
  }

  /** `{ ...prev, [name]: value }` for a text input. */
  function WithField<F>(fd: FormData<F>, f: TextField, value: string): FormData<F> {
    match f
    case Street => fd.(street := value)
    case Number => fd.(number := value)
    case PostalCode => fd.(postalCode := value)
    case Neighborhood => fd.(neighborhood := value)
    case City => fd.(city := value)
    case State => fd.(state := value)
    case Description => fd.(description := value)
    case Price => fd.(price := value)
  }

  /** Setting one input changes that input and nothing else. */
  lemma WithFieldChangesOnlyThatField<F>(fd: FormData<F>, f: TextField, value: string, g: TextField)
    ensures FieldValue(WithField(fd, f, value), g) == if g == f then value else FieldValue(fd, g)
    ensures WithField(fd, f, value).additionalServices == fd.additionalServices
    ensures WithField(fd, f, value).images == fd.images
  {
  }

  /** `arr.slice(0, end)`: a negative end counts from the back. */
  function SliceTo<T>(s: seq<T>, end: int): (r: seq<T>)
    ensures |r| <= |s| && r == s[..|r|]
  {
    if end >= |s| then s
    else if end >= 0 then s[..end]
    else if |s| + end > 0 then s[..|s| + end]
    else []
  }

  /** `arr.splice(index, 1)` on a copy: a negative index counts from the
      back, and an index past the end removes nothing. */
  function SpliceOne<T>(s: seq<T>, index: int): seq<T> {
    var start := if index < 0 then (if |s| + index > 0 then |s| + index else 0) else index;
    if start < |s| then s[..start] + s[start + 1..] else s
  }

  /** The images after an upload: the existing ones, then as many new files
      as still fit. */
  function AfterUpload<F>(images: seq<F>, files: seq<F>): seq<F> {
    images + SliceTo(files, MaxImages - |images|)
  }

  /** An upload keeps the existing images as a prefix, adds files in their
      order, and never takes the list past ten. */
  lemma UploadKeepsAtMostTen<F>(images: seq<F>, files: seq<F>)
    requires |images| <= MaxImages
    ensures var r := AfterUpload(images, files);
      && r[..|images|] == images
      && r[|images|..] == files[..|r| - |images|]
      && |r| == if |images| + |files| <= MaxImages then |images| + |files| else MaxImages
  {
    var r := AfterUpload(images, files);
    assert r[..|images|] == images;
    assert r[|images|..] == SliceTo(files, MaxImages - |images|);
  }

  /** Removing at a valid index drops exactly that image and keeps the
      others in order. */
  lemma RemoveAtValidIndex<F>(images: seq<F>, index: int)
    requires 0 <= index < |images|
    ensures var r := SpliceOne(images, index);
      && |r| == |images| - 1
      && r[..index] == images[..index]
      && r[index..] == images[index + 1..]
  {
  }

  /** Removing a service by value drops every copy of it and keeps every
      other entry as often as it occurred. */
  lemma RemoveServiceDropsEveryCopy(list: seq<string>, service: string, other: string)
    requires other != service
    ensures service !in Lists.Filter(list, s => s != service)
    ensures multiset(Lists.Filter(list, s => s != service))[other] == multiset(list)[other]
  {
    Lists.FilterMembers(list, s => s != service, service);
    Lists.FilterCounts(list, s => s != service, other);
  }

  /** The publish button is enabled exactly when all eight text inputs are filled. */
  function PublishEnabled<F>(fd: FormData<F>): (enabled: bool)
    ensures enabled <==> forall f: TextField :: FieldValue(fd, f) != ""
  {
    assert FieldValue(fd, Street) == fd.street && FieldValue(fd, Number) == fd.number;
    assert FieldValue(fd, PostalCode) == fd.postalCode && FieldValue(fd, Neighborhood) == fd.neighborhood;
    assert FieldValue(fd, City) == fd.city && FieldValue(fd, State) == fd.state;
    assert FieldValue(fd, Description) == fd.description && FieldValue(fd, Price) == fd.price;
    !(fd.street == "" || fd.number == "" || fd.neighborhood == "" || fd.postalCode == ""
      || fd.city == "" || fd.state == "" || fd.description == "" || fd.price == "")
  }

  class Publication<F> {
    var formData: FormData<F>
    var services: map<string, bool>
    var additionalService: string

    /** At most ten images are ever held. */
    ghost predicate Valid()
      reads this
    {
      |formData.images| <= MaxImages
    }

    constructor ()
      ensures Valid()
      ensures formData == EmptyForm() && services == DefaultServices() && additionalService == ""
    {
      formData := EmptyForm();
      services := DefaultServices();
      additionalService := "";
    }

    /** `handleChange`: the input named `name` takes `value`. */
    method HandleChange(name: TextField, value: string)
      requires Valid()
      modifies this`formData
      ensures Valid()
      ensures formData == WithField(old(formData), name, value)
    {
      formData := WithField(formData, name, value);
    }

    /** `handleServiceChange`: the named check box takes the new state. */
    method HandleServiceChange(name: string, checked: bool)
      requires Valid()
      modifies this`services
      ensures Valid()
      ensures services == old(services)[name := checked]
      ensures forall k :: k in old(services) && k != name ==> k in services && services[k] == old(services)[k]
    {
      services := services[name := checked];
    }

    /** The extra-service text box's `onChange`. */
    method SetAdditionalService(text: string)
      requires Valid()
      modifies this`additionalService
      ensures Valid()
      ensures additionalService == text
    {
      additionalService := text;
    }

    /** `handleAddService`: a blank entry changes nothing; otherwise the
      trimmed text goes at the end of the list and the box is cleared. */
    method HandleAddService()
      requires Valid()
      modifies this`formData, this`additionalService
      ensures Valid()
      ensures Text.AllSpace(old(additionalService)) ==>
        formData == old(formData) && additionalService == old(additionalService)
      ensures !Text.AllSpace(old(additionalService)) ==>
        && formData == old(formData).(additionalServices := old(formData.additionalServices) + [Text.Trim(old(additionalService))])
        && additionalService == ""
    {
      Text.TrimEmptyIff(additionalService);
      if Text.Trim(additionalService) != "" {
        formData := formData.(additionalServices := formData.additionalServices + [Text.Trim(additionalService)]);
        additionalService := "";
      }
    }

    /** `handleRemoveService`: every entry equal to `service` goes, the rest
      stay in order. */
    method HandleRemoveService(service: string)
      requires Valid()
      modifies this`formData
      ensures Valid()
      ensures formData == old(formData).(additionalServices := Lists.Filter(old(formData.additionalServices), s => s != service))
    {
      formData := formData.(additionalServices := Lists.Filter(formData.additionalServices, s => s != service));
    }

    /** `handleImageUpload`: appends as many of `files` as still fit. */
    method HandleImageUpload(files: seq<F>)
      requires Valid()
      modifies this`formData
      ensures Valid()
      ensures formData == old(formData).(images := AfterUpload(old(formData.images), files))
    {
      UploadKeepsAtMostTen(formData.images, files);
      formData := formData.(images := formData.images + SliceTo(files, MaxImages - |formData.images|));
    }

    /** `handleRemoveImage`: removes the image at `index` from a copy of the list. */
    method HandleRemoveImage(index: int)
      requires Valid()
      modifies this`formData
      ensures Valid()
      ensures formData == old(formData).(images := SpliceOne(old(formData.images), index))
    {
      var newImages := formData.images;
      newImages := SpliceOne(newImages, index);
      formData := formData.(images := newImages);
    }

    /** Whether the publish button is enabled. */
    function CanPublish(): (enabled: bool)
      reads this
      ensures enabled <==> forall f: TextField :: FieldValue(formData, f) != ""
    {
      PublishEnabled(formData)
    }

    /** Whether the add-service button is disabled: exactly when the box
      holds only whitespace, so the button is enabled exactly when
      `HandleAddService` would add something. */
    function AddServiceDisabled(): (disabled: bool)
      reads this
      ensures disabled <==> Text.AllSpace(additionalService)
    {
      Text.TrimEmptyIff(additionalService);
      Text.Trim(additionalService) == ""
    }

    /** Whether the upload input is disabled: exactly when ten or more images
      are held, which with `Valid` means exactly ten. */
    function UploadDisabled(): (disabled: bool)
      reads this
      ensures disabled <==> |formData.images| >= MaxImages
      ensures Valid() ==> (disabled <==> |formData.images| == MaxImages)
    {
      |formData.images| >= 10
    }
  }
}
