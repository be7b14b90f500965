/**
 * Model of src/app/add-property/page.tsx: the form that submits a new listing.
 *
 * The component's `useState` entries are the fields of a class. The phone
 * input's `onChange` rule is a pure function; `uploadImages` is a loop over the
 * selected files; `handleSubmit` is a method proved against `SubmitTrace`, the
 * sequence of effects it must issue. What the outside world answers (the signed
 * in user, the upload of each file, whether saving succeeded) is a parameter.
 */
module AddProperty {
  import opened Wrappers
  import PropertyCode

  const PhoneErrorMessage: string := "Phone number must be exactly 10 digits"
  const LoginRequired: string := "You must be logged in to add a property"
  const SubmitFailed: string := "Failed to submit property"

  // ---------------------------------------------------------------------------
  // The phone input
  // ---------------------------------------------------------------------------

  /** The phone input's state: its value and the message shown under it. */
  datatype PhoneField = PhoneField(phone: string, error: string)

  /** The `onChange` rule: a value with a non-digit is ignored; otherwise it is taken and the message set. */
  function PhoneInput(field: PhoneField, value: string): (r: PhoneField)
    ensures !PropertyCode.AllDigits(value) ==> r == field
    ensures PropertyCode.AllDigits(value) ==> r.phone == value
    ensures PropertyCode.AllDigits(value) ==> (r.error != "" <==> |value| != 10)
    ensures PropertyCode.AllDigits(value) ==> r.error == "" || r.error == PhoneErrorMessage
  {
    if PropertyCode.AllDigits(value) then
      PhoneField(value, if |value| != 10 then PhoneErrorMessage else "")
    else field
  }

  /** A ten-digit value is taken and clears the message, whatever was there before. */
  lemma PhoneInputKeepsDigits(field: PhoneField, value: string)
    requires PropertyCode.AllDigits(value) && |value| == 10
    ensures PhoneInput(field, value) == PhoneField(value, "")
  {
  }

  // ---------------------------------------------------------------------------
  // uploadImages
  // ---------------------------------------------------------------------------

  /**
   * What one iteration of the upload loop gets: the `url` field of the JSON
   * response, absent when the upload route answered with an error body, or an
   * exception (compression, network or JSON parsing).
   */
  datatype UploadStep = Responded(url: Option<string>) | Threw

  /** The result of `uploadImages`: the collected URLs, or the index of the file whose step threw. */
  datatype Uploads = Uploaded(urls: seq<Option<string>>) | UploadFailed(at: nat)

  /** The effects of the page outside its own state. */
  datatype Effect<F> =
    | SetLoading(on: bool)
    | SetPhoneError(message: string)
    | GetUser
    | UploadFile(file: F)
    | PostProperty(request: CreateRequest)
    | Navigate(path: string)
    | Alert(message: string)

  /** The body of `POST /api/properties`. `price` is kept as the text typed in. */
  datatype CreateRequest = CreateRequest(
    title: string,
    price: string,
    location: string,
    purpose: string,
    identity: string,
    description: string,
    images: seq<Option<string>>,
    contactName: string,
    contactPhone: string,
    userEmail: Option<string>)

  /** The signed-in user as the auth provider reports it; the e-mail may be missing. */
  datatype User = User(email: Option<string>)

  /** `uploadImages(files)` as a function: one URL per file, in file order, stopping at the first throw. */
  function UploadAll<F>(files: seq<F>, upload: F -> UploadStep): (r: Uploads)
    ensures r.Uploaded? ==> |r.urls| == |files|
    ensures r.UploadFailed? ==> r.at < |files|
  {
    if files == [] then Uploaded([])
    else
      match upload(files[0])
      case Threw => UploadFailed(0)
      case Responded(u) =>
        match UploadAll(files[1..], upload)
        case Uploaded(us) => Uploaded([u] + us)
        case UploadFailed(k) => UploadFailed(k + 1)
  }

  /** What `uploadImages` promises its caller. */
  ghost predicate UploadsMatch<F>(files: seq<F>, upload: F -> UploadStep, r: Uploads) {
    && (r.Uploaded? <==> forall i :: 0 <= i < |files| ==> upload(files[i]).Responded?)
    && (r.Uploaded? ==>
          |r.urls| == |files| &&
          forall i :: 0 <= i < |files| ==> upload(files[i]).Responded? && r.urls[i] == upload(files[i]).url)
    && (r.UploadFailed? ==>
          r.at < |files| && upload(files[r.at]).Threw? &&
          forall i :: 0 <= i < r.at ==> upload(files[i]).Responded?)
  }

  lemma {:induction false} UploadAllSpec<F>(files: seq<F>, upload: F -> UploadStep)
    ensures UploadsMatch(files, upload, UploadAll(files, upload))
  {
    if files != [] && upload(files[0]).Responded? {
      var rest := files[1..];
      UploadAllSpec(rest, upload);
      forall i | 1 <= i < |files| ensures files[i] == rest[i - 1] {}
    }
  }

  /** Only one result meets the promise, so it fixes the result. */
  lemma UploadsDetermined<F>(files: seq<F>, upload: F -> UploadStep, r1: Uploads, r2: Uploads)
    requires UploadsMatch(files, upload, r1) && UploadsMatch(files, upload, r2)
    ensures r1 == r2
  {
  }

  /** How many files the loop calls the upload for. */
  function Attempted(count: nat, r: Uploads): (n: nat)
    ensures n <= count
  {
    match r
    case Uploaded(_) => count
    case UploadFailed(k) => if k < count then k + 1 else count
  }

  function FileEffects<F>(files: seq<F>): (r: seq<Effect<F>>)
    ensures |r| == |files| && forall i :: 0 <= i < |files| ==> r[i] == UploadFile(files[i])
  {
    seq(|files|, i requires 0 <= i < |files| => UploadFile(files[i]))
  }

  /** `uploadImages(files)`: compresses and posts each file in turn, pushing `data.url`. */
  method UploadImages<F>(files: seq<F>, upload: F -> UploadStep) returns (r: Uploads, effects: seq<Effect<F>>)
    ensures UploadsMatch(files, upload, r)
    ensures r == UploadAll(files, upload)
    ensures effects == FileEffects(files[..Attempted(|files|, r)])
  {
    var urls: seq<Option<string>> := [];
    effects := [];
    for i := 0 to |files|
      invariant |urls| == i
      invariant forall k :: 0 <= k < i ==> upload(files[k]).Responded? && urls[k] == upload(files[k]).url
      invariant effects == FileEffects(files[..i])
    {
      var step := upload(files[i]);
      effects := effects + [UploadFile(files[i])];
      assert effects == FileEffects(files[..i + 1]);
      if step.Threw? {
        r := UploadFailed(i);
        UploadAllSpec(files, upload);
        UploadsDetermined(files, upload, r, UploadAll(files, upload));
        return;
      }
      urls := urls + [step.url];
    }
    r := Uploaded(urls);
    assert files[..|files|] == files;
    UploadAllSpec(files, upload);
    UploadsDetermined(files, upload, r, UploadAll(files, upload));
  }

  // ---------------------------------------------------------------------------
  // handleSubmit
  // ---------------------------------------------------------------------------

  /** The form fields `handleSubmit` reads. */
  datatype Draft<F> = Draft(
    title: string,
    price: string,
    location: string,
    purpose: string,
    identity: string,
    description: string,
    images: Option<seq<F>>,
    contactName: string,
    contactPhone: string)

  function RequestFor<F>(d: Draft<F>, u: User, images: seq<Option<string>>): CreateRequest {
    CreateRequest(d.title, d.price, d.location, d.purpose, d.identity, d.description,
                  images, d.contactName, d.contactPhone, u.email)
  }

  /** Step 3 and the `finally` block: post, then navigate home or alert, then clear loading. */
  function PostAndFinish<F>(request: CreateRequest, saveOk: bool): (r: seq<Effect<F>>)
    ensures |r| == 3 && r[0] == PostProperty(request) && r[2] == SetLoading(false)
  {
    [PostProperty(request)] + (if saveOk then [Navigate("/")] else [Alert(SubmitFailed)]) + [SetLoading(false)]
  }

  /** The `try` block with its `catch` and `finally`, entered once the phone has the right length. */
  function TryTrace<F>(d: Draft<F>, user: Option<User>, upload: F -> UploadStep, saveOk: bool): (r: seq<Effect<F>>)
    ensures |r| >= 3 && r[0] == GetUser && r[|r| - 1] == SetLoading(false)
  {
    [GetUser] + AfterLookup(d, user, upload, saveOk)
  }

  /** Everything after the user lookup. */
  function AfterLookup<F>(d: Draft<F>, user: Option<User>, upload: F -> UploadStep, saveOk: bool): seq<Effect<F>> {
    match user
    case None => [Alert(LoginRequired), SetLoading(false), SetLoading(false)]
    case Some(u) =>
      match d.images
      case None => PostAndFinish(RequestFor(d, u, []), saveOk)
      case Some(files) =>
        var r := UploadAll(files, upload);
        FileEffects(files[..Attempted(|files|, r)]) +
        (match r
         case UploadFailed(_) => [Alert(SubmitFailed), SetLoading(false)]
         case Uploaded(urls) => PostAndFinish(RequestFor(d, u, urls), saveOk))
  }

  /** The effects `handleSubmit` issues, in order. */
  function SubmitTrace<F>(d: Draft<F>, user: Option<User>, upload: F -> UploadStep, saveOk: bool): (r: seq<Effect<F>>)
    ensures |r| >= 3 && r[0] == SetLoading(true)
    ensures r[1] == if |d.contactPhone| == 10 then GetUser else SetPhoneError(PhoneErrorMessage)
  {
    [SetLoading(true)] +
    if |d.contactPhone| != 10 then [SetPhoneError(PhoneErrorMessage), SetLoading(false)]
    else TryTrace(d, user, upload, saveOk)
  }

  /** A phone of the wrong length stops the submission before the user lookup, any upload or any request. */
  lemma SubmitPhoneGate<F>(d: Draft<F>, user: Option<User>, upload: F -> UploadStep, saveOk: bool)
    requires |d.contactPhone| != 10
    ensures SubmitTrace(d, user, upload, saveOk) == [SetLoading(true), SetPhoneError(PhoneErrorMessage), SetLoading(false)]
  {
  }

  /** Without a signed-in user the submission alerts and clears loading, uploading and posting nothing. */
  lemma SubmitNeedsUser<F>(d: Draft<F>, upload: F -> UploadStep, saveOk: bool)
    requires |d.contactPhone| == 10
    ensures SubmitTrace(d, None, upload, saveOk) ==
      [SetLoading(true), GetUser, Alert(LoginRequired), SetLoading(false), SetLoading(false)]
  {
  }

  lemma TryWithoutImages<F>(d: Draft<F>, u: User, upload: F -> UploadStep, saveOk: bool)
    requires d.images.None?
    ensures TryTrace(d, Some(u), upload, saveOk) == [GetUser] + PostAndFinish(RequestFor(d, u, []), saveOk)
  {
  }

  lemma TryWithImages<F>(d: Draft<F>, u: User, upload: F -> UploadStep, saveOk: bool)
    requires d.images.Some?
    ensures var files := d.images.value;
      var r := UploadAll(files, upload);
      TryTrace(d, Some(u), upload, saveOk) ==
        [GetUser] + FileEffects(files[..Attempted(|files|, r)]) +
        (match r
         case UploadFailed(_) => [Alert(SubmitFailed), SetLoading(false)]
         case Uploaded(urls) => PostAndFinish(RequestFor(d, u, urls), saveOk))
  {
  }

  /** Loading is switched on first and off last, on every path. */
  lemma SubmitClearsLoading<F>(d: Draft<F>, user: Option<User>, upload: F -> UploadStep, saveOk: bool)
    ensures var t := SubmitTrace(d, user, upload, saveOk);
      |t| >= 3 && t[0] == SetLoading(true) && t[|t| - 1] == SetLoading(false)
  {
  }

  /** The create requests a trace posts, in order. */
  function Posted<F>(t: seq<Effect<F>>): seq<CreateRequest> {
    if t == [] then [] else (if t[0].PostProperty? then [t[0].request] else []) + Posted(t[1..])
  }

  lemma {:induction false} PostedConcat<F>(a: seq<Effect<F>>, b: seq<Effect<F>>)
    ensures Posted(a + b) == Posted(a) + Posted(b)
  {
    if a == [] {
      assert a + b == b;
    } else {
      assert (a + b)[0] == a[0] && (a + b)[1..] == a[1..] + b;
      PostedConcat(a[1..], b);
    }
  }

  lemma {:induction false} NothingPosted<F>(t: seq<Effect<F>>)
    requires forall k :: 0 <= k < |t| ==> !t[k].PostProperty?
    ensures Posted(t) == []
  {
    if t != [] {
      NothingPosted(t[1..]);
    }
  }

  lemma {:induction false} PostAndFinishPosts<F>(request: CreateRequest, saveOk: bool)
    ensures Posted(PostAndFinish<F>(request, saveOk)) == [request]
  {
    var post: seq<Effect<F>> := PostAndFinish(request, saveOk);
    assert post == [PostProperty(request)] + post[1..];
    PostedConcat([PostProperty(request)], post[1..]);
    NothingPosted(post[1..]);
  }

  lemma TryPostsWithoutImages<F>(d: Draft<F>, u: User, upload: F -> UploadStep, saveOk: bool)
    requires d.images.None?
    ensures Posted(TryTrace(d, Some(u), upload, saveOk)) == [RequestFor(d, u, [])]
  {
    TryWithoutImages(d, u, upload, saveOk);
    PostedConcat([GetUser], PostAndFinish<F>(RequestFor(d, u, []), saveOk));
    PostAndFinishPosts<F>(RequestFor(d, u, []), saveOk);
    NothingPosted<F>([GetUser]);
  }

  lemma TryPostsWithImages<F>(d: Draft<F>, u: User, upload: F -> UploadStep, saveOk: bool)
    requires d.images.Some?
    ensures Posted(TryTrace(d, Some(u), upload, saveOk)) ==
      match UploadAll(d.images.value, upload)
      case UploadFailed(_) => []
      case Uploaded(urls) => [RequestFor(d, u, urls)]
  {
    var files := d.images.value;
    var r := UploadAll(files, upload);
    var ups := FileEffects(files[..Attempted(|files|, r)]);
    var tail: seq<Effect<F>> :=
      match r
      case UploadFailed(_) => [Alert(SubmitFailed), SetLoading(false)]
      case Uploaded(urls) => PostAndFinish(RequestFor(d, u, urls), saveOk);
    TryWithImages(d, u, upload, saveOk);
    assert TryTrace(d, Some(u), upload, saveOk) == ([GetUser] + ups) + tail;
    PostedConcat([GetUser] + ups, tail);
    NothingPosted([GetUser] + ups);
    if r.Uploaded? {
      PostAndFinishPosts<F>(RequestFor(d, u, r.urls), saveOk);
    } else {
      NothingPosted(tail);
    }
  }

  /**
   * At most one create request is posted: exactly when the phone has ten
   * characters, a user is signed in and no upload threw. It carries the form's
   * fields and the user's e-mail, with no images when none were selected and
   * otherwise the collected URLs.
   */
  lemma SubmitPosts<F>(d: Draft<F>, user: Option<User>, upload: F -> UploadStep, saveOk: bool)
    ensures Posted(SubmitTrace(d, user, upload, saveOk)) ==
      if |d.contactPhone| != 10 || user.None? then []
      else match d.images
        case None => [RequestFor(d, user.value, [])]
        case Some(files) =>
          match UploadAll(files, upload)
          case UploadFailed(_) => []
          case Uploaded(urls) => [RequestFor(d, user.value, urls)]
  {
    var t := SubmitTrace(d, user, upload, saveOk);
    if |d.contactPhone| == 10 && user.Some? {
      PostedConcat([SetLoading(true)], TryTrace(d, user, upload, saveOk));
      NothingPosted<F>([SetLoading(true)]);
      if d.images.None? {
        TryPostsWithoutImages(d, user.value, upload, saveOk);
      } else {
        TryPostsWithImages(d, user.value, upload, saveOk);
      }
    } else {
      NothingPosted(t);
    }
  }

  /** The upload effects neither navigate nor alert. */
  lemma UploadsHaveNoOutcome<F>(files: seq<F>)
    ensures Navigate("/") !in FileEffects(files) && Alert(SubmitFailed) !in FileEffects(files)
  {
    var ups := FileEffects(files);
    assert forall k :: 0 <= k < |ups| ==> ups[k].UploadFile?;
  }

  /** The submission reaches the create request: ten-character phone, a user, and no upload that threw. */
  ghost predicate ReachesSave<F>(d: Draft<F>, user: Option<User>, upload: F -> UploadStep) {
    |d.contactPhone| == 10 && user.Some? && (d.images.None? || UploadAll(d.images.value, upload).Uploaded?)
  }

  /** Without images, the `try` block ends in the navigation iff the save succeeds and in the alert otherwise. */
  lemma TryOutcomeWithoutImages<F>(d: Draft<F>, u: User, upload: F -> UploadStep, saveOk: bool)
    requires d.images.None?
    ensures var t := TryTrace(d, Some(u), upload, saveOk);
      (Navigate("/") in t <==> saveOk) && (Alert(SubmitFailed) in t <==> !saveOk)
  {
    TryWithoutImages(d, u, upload, saveOk);
  }

  /** With images, the navigation needs every upload to respond and the save to succeed; the alert follows otherwise. */
  lemma TryOutcomeWithImages<F>(d: Draft<F>, u: User, upload: F -> UploadStep, saveOk: bool)
    requires d.images.Some?
    ensures var t, ok := TryTrace(d, Some(u), upload, saveOk), UploadAll(d.images.value, upload).Uploaded?;
      (Navigate("/") in t <==> ok && saveOk) && (Alert(SubmitFailed) in t <==> !ok || !saveOk)
  {
    var files := d.images.value;
    var r := UploadAll(files, upload);
    UploadsHaveNoOutcome(files[..Attempted(|files|, r)]);
    TryWithImages(d, u, upload, saveOk);
  }

  /** How a submission ends: navigation iff the save is reached and succeeds; the failure alert iff an upload threw or the save failed. */
  lemma SubmitOutcomes<F>(d: Draft<F>, user: Option<User>, upload: F -> UploadStep, saveOk: bool)
    ensures var t := SubmitTrace(d, user, upload, saveOk);
      && (Navigate("/") in t <==> ReachesSave(d, user, upload) && saveOk)
      && (Alert(SubmitFailed) in t <==>
            |d.contactPhone| == 10 && user.Some? && (!ReachesSave(d, user, upload) || !saveOk))
  {
    if |d.contactPhone| != 10 {
      SubmitPhoneGate(d, user, upload, saveOk);
    } else if user.None? {
      SubmitNeedsUser(d, upload, saveOk);
    } else {
      assert SubmitTrace(d, user, upload, saveOk) == [SetLoading(true)] + TryTrace(d, user, upload, saveOk);
      if d.images.None? {
        TryOutcomeWithoutImages(d, user.value, upload, saveOk);
      } else {
        TryOutcomeWithImages(d, user.value, upload, saveOk);
      }
    }
  }

  /** A request is posted exactly when the submission reaches the save. */
  lemma SubmitPostsIffSaved<F>(d: Draft<F>, user: Option<User>, upload: F -> UploadStep, saveOk: bool)
    ensures Posted(SubmitTrace(d, user, upload, saveOk)) != [] <==> ReachesSave(d, user, upload)
  {
    SubmitPosts(d, user, upload, saveOk);
  }

  /** The submission navigates home exactly when a request was posted and the save succeeded. */
  lemma SubmitNavigates<F>(d: Draft<F>, user: Option<User>, upload: F -> UploadStep, saveOk: bool)
    ensures var t := SubmitTrace(d, user, upload, saveOk);
      Navigate("/") in t <==> Posted(t) != [] && saveOk
  {
    SubmitOutcomes(d, user, upload, saveOk);
    SubmitPostsIffSaved(d, user, upload, saveOk);
  }

  /**
   * "Failed to submit property" is alerted exactly when the phone has ten
   * characters, a user is signed in, and either an upload threw or a request
   * was posted and its save failed.
   */
  lemma SubmitAlertsFailure<F>(d: Draft<F>, user: Option<User>, upload: F -> UploadStep, saveOk: bool)
    ensures var t := SubmitTrace(d, user, upload, saveOk);
      Alert(SubmitFailed) in t <==>
        |d.contactPhone| == 10 && user.Some? &&
        ((d.images.Some? && UploadAll(d.images.value, upload).UploadFailed?) || (Posted(t) != [] && !saveOk))
  {
    SubmitOutcomes(d, user, upload, saveOk);
    SubmitPostsIffSaved(d, user, upload, saveOk);
  }

  /** Whenever a request is posted, the user lookup came right after loading was switched on. */
  lemma SubmitLooksUpUserFirst<F>(d: Draft<F>, user: Option<User>, upload: F -> UploadStep, saveOk: bool)
    ensures var t := SubmitTrace(d, user, upload, saveOk);
      Posted(t) != [] ==> |t| >= 2 && t[..2] == [SetLoading(true), GetUser] && user.Some?
  {
    SubmitPosts(d, user, upload, saveOk);
  }

  /** A posted request carries the form's phone, which then has ten characters, all digits when the form's are. */
  lemma SubmitPostsTenDigits<F>(d: Draft<F>, user: Option<User>, upload: F -> UploadStep, saveOk: bool)
    requires PropertyCode.AllDigits(d.contactPhone)
    ensures forall req :: req in Posted(SubmitTrace(d, user, upload, saveOk)) ==>
      req.contactPhone == d.contactPhone && |req.contactPhone| == 10 && PropertyCode.AllDigits(req.contactPhone)
  {
    SubmitPosts(d, user, upload, saveOk);
  }

  /** The images a posted request carries: none when none were selected, else one URL per file, in file order. */
  lemma SubmitImages<F>(d: Draft<F>, user: Option<User>, upload: F -> UploadStep, saveOk: bool)
    ensures forall req :: req in Posted(SubmitTrace(d, user, upload, saveOk)) ==>
      && (d.images.None? ==> req.images == [])
      && (d.images.Some? ==>
            |req.images| == |d.images.value| &&
            forall i :: 0 <= i < |d.images.value| ==>
              upload(d.images.value[i]).Responded? && req.images[i] == upload(d.images.value[i]).url)
  {
    SubmitPosts(d, user, upload, saveOk);
    if d.images.Some? {
      UploadAllSpec(d.images.value, upload);
    }
  }

  // ---------------------------------------------------------------------------
  // The page state
  // ---------------------------------------------------------------------------

  /** The text inputs of the form other than the phone. */
  datatype TextField = Title | Price | Location | Purpose | Identity | Description | ContactName

  class AddPropertyPage<F> {
    var title: string
    var price: string
    var location: string
    var purpose: string
    var identity: string
    var description: string
    var images: Option<seq<F>>
    var contactName: string
    var contactPhone: string
    var phoneError: string
    var loading: bool

    /** The phone holds only digits (the input rejects anything else) and its message is one of two. */
    ghost predicate Valid()
      reads this
    {
      PropertyCode.AllDigits(contactPhone) && (phoneError == "" || phoneError == PhoneErrorMessage)
    }

    function Fields(): Draft<F>
      reads this
    {
      Draft(title, price, location, purpose, identity, description, images, contactName, contactPhone)
    }

    constructor ()
      ensures Valid()
      ensures Fields() == Draft("", "", "", "", "", "", None, "", "")
      ensures phoneError == "" && !loading
    {
      title, price, location, purpose, identity, description := "", "", "", "", "", "";
      images, contactName, contactPhone := None, "", "";
      phoneError, loading := "", false;
    }

    /** The `onChange` of a plain text input or select. */
    method Edit(field: TextField, value: string)
      requires Valid()
      modifies this
      ensures Valid()
      ensures Fields() == match field
        case Title => old(Fields()).(title := value)
        case Price => old(Fields()).(price := value)
        case Location => old(Fields()).(location := value)
        case Purpose => old(Fields()).(purpose := value)
        case Identity => old(Fields()).(identity := value)
        case Description => old(Fields()).(description := value)
        case ContactName => old(Fields()).(contactName := value)
      ensures phoneError == old(phoneError) && loading == old(loading)
    {
      match field
      case Title => title := value;
      case Price => price := value;
      case Location => location := value;
      case Purpose => purpose := value;
      case Identity => identity := value;
      case Description => description := value;
      case ContactName => contactName := value;
    }

    /** The file input's `onChange`: `setImages(files)`; the previews are not modelled. */
    method SelectImages(files: Option<seq<F>>)
      requires Valid()
      modifies this
      ensures Valid()
      ensures Fields() == old(Fields()).(images := files)
      ensures phoneError == old(phoneError) && loading == old(loading)
    {
      images := files;
    }

    /** The phone input's `onChange`. */
    method OnPhoneChange(value: string)
      requires Valid()
      modifies this
      ensures Valid()
      ensures PhoneField(contactPhone, phoneError) == PhoneInput(old(PhoneField(contactPhone, phoneError)), value)
      ensures Fields() == old(Fields()).(contactPhone := contactPhone) && loading == old(loading)
    {
      if PropertyCode.AllDigits(value) {
        contactPhone := value;
        if |value| != 10 {
          phoneError := PhoneErrorMessage;
        } else {
          phoneError := "";
        }
      }
    }

    /** `handleSubmit`: the phone-length gate, then the `try` block. */
    method HandleSubmit(user: Option<User>, upload: F -> UploadStep, saveOk: bool) returns (effects: seq<Effect<F>>)
      requires Valid()
      modifies this
      ensures Valid()
      ensures effects == SubmitTrace(old(Fields()), user, upload, saveOk)
      ensures Fields() == old(Fields()) && !loading
      ensures phoneError == if |contactPhone| != 10 then PhoneErrorMessage else old(phoneError)
    {
      loading := true;
      effects := [SetLoading(true)];
      if |contactPhone| != 10 {
        phoneError := PhoneErrorMessage;
        loading := false;
        effects := effects + [SetPhoneError(PhoneErrorMessage), SetLoading(false)];
        return;
      }
      var rest := TrySubmit(user, upload, saveOk);
      effects := effects + rest;
    }

    /** Lines 70-116 of `handleSubmit`: user lookup, uploads and the create request, with `catch` and `finally`. */
    method TrySubmit(user: Option<User>, upload: F -> UploadStep, saveOk: bool) returns (effects: seq<Effect<F>>)
      requires Valid()
      modifies this`loading
      ensures effects == TryTrace(Fields(), user, upload, saveOk)
      ensures !loading
    {
      // step 1, the signed-in user
      effects := [GetUser];
      if user.None? {
        loading := false;
        effects := effects + [Alert(LoginRequired), SetLoading(false)];
        // finally
        effects := effects + [SetLoading(false)];
        return;
      }
      // step 2, the images
      var imageUrls: seq<Option<string>> := [];
      if images.Some? {
        var r, uploads := UploadImages(images.value, upload);
        effects := effects + uploads;
        TryWithImages(Fields(), user.value, upload, saveOk);
        if r.UploadFailed? {
          // catch, then finally
          loading := false;
          effects := effects + [Alert(SubmitFailed), SetLoading(false)];
          return;
        }
        imageUrls := r.urls;
      } else {
        TryWithoutImages(Fields(), user.value, upload, saveOk);
      }
      // step 3, the create request
      var request := RequestFor(Fields(), user.value, imageUrls);
      var finish := SaveProperty(request, saveOk);
      effects := effects + finish;
    }

    /** Step 3 and the `finally` block: post the request, then navigate home or alert, then clear loading. */
    method SaveProperty(request: CreateRequest, saveOk: bool) returns (effects: seq<Effect<F>>)
      modifies this`loading
      ensures effects == PostAndFinish(request, saveOk)
      ensures !loading
    {
      effects := [PostProperty(request)];
      if saveOk {
        effects := effects + [Navigate("/")];
      } else {
        // the thrown "Failed to save property" lands in the `catch`
        effects := effects + [Alert(SubmitFailed)];
      }
      // finally
      loading := false;
      effects := effects + [SetLoading(false)];
    }
  }
}
