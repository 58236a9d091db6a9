/**
 * The `App` component of src/App.js as an object: its seven `useState` slots
 * are fields, and its handlers are methods that update them step by step.
 * A handler gets the outcome of its `fetch` as a parameter and returns the
 * request it sent, if any. Each method is proved to do what the matching
 * function of module AppState says.
 */
module Dashboard {
  import opened Text
  import opened AppState

  class App {
    var businessName: string
    var location: string
    var businessData: Option<BusinessData>
    var isLoading: bool
    var isRegenerating: bool
    var errors: map<Field, string>
    var notification: Option<Notification>

    /** The component state as a value. */
    function State(): View
      reads this
    {
      View(businessName, location, businessData, isLoading, isRegenerating, errors, notification)
    }

    constructor ()
      ensures State() == Initial
    {
      businessName, location := "", "";
      businessData := None;
      isLoading, isRegenerating := false, false;
      errors := map[];
      notification := None;
    }

    /** The business name field's `onChange`. */
    method SetBusinessName(text: string)
      modifies this`businessName
      ensures State() == Step(old(State()), EditName(text))
    {
      businessName := text;
    }

    /** The location field's `onChange`. */
    method SetLocation(text: string)
      modifies this`location
      ensures State() == Step(old(State()), EditLocation(text))
    {
      location := text;
    }

    /** `showNotification`: the new banner replaces whatever was shown. */
    method ShowNotification(message: string, kind: Kind)
      modifies this`notification
      ensures notification == Some(Notification(message, kind))
    {
      notification := Some(Notification(message, kind));
    }

    /** `validateForm`: builds a fresh error map field by field, replaces
        `errors` with it and reports whether it is empty. */
    method ValidateForm() returns (valid: bool)
      modifies this`errors
      ensures errors == FieldErrors(businessName, location)
      ensures valid <==> errors == map[]
    {
      var newErrors: map<Field, string> := map[];
      if Trim(businessName) == [] {
        newErrors := newErrors[Name := NameRequired];
      }
      if Trim(location) == [] {
        newErrors := newErrors[Location := LocationRequired];
      }
      errors := newErrors;
      valid := |newErrors| == 0;
    }

    /** `handleSubmit`, with `response` the outcome of its POST. */
    method HandleSubmit(response: Response<Metrics>) returns (request: Option<Request>)
      modifies this
      ensures request == SubmitRequest(old(State()))
      ensures State() == Submit(old(State()), response)
    {
      var valid := ValidateForm();
      if !valid {
        ShowNotification(FillRequiredFields, Error);
        request := None;
        return;
      }
      isLoading := true;
      request := Some(FetchBusinessData(businessName, location));
      if response.Ok? {
        businessData := Some(BusinessData(response.payload, businessName, location));
        ShowNotification(DataLoaded, Success);
      } else {
        ShowNotification(DataLoadFailed, Error);
      }
      isLoading := false;
    }

    /** `handleRegenerateHeadline`, with `response` the outcome of its GET. */
    method HandleRegenerateHeadline(response: Response<HeadlineReply>) returns (request: Option<Request>)
      modifies this
      ensures request == RegenerateRequest(old(State()))
      ensures State() == Regenerate(old(State()), response)
    {
      if businessData.None? {
        request := None;
        return;
      }
      isRegenerating := true;
      request := Some(RegenerateHeadline(businessData.value.businessName, businessData.value.location));
      match response {
        case Fail =>
          ShowNotification(HeadlineRegenerateFailed, Error);
        case Ok(reply) =>
          businessData := WithHeadline(businessData, reply.headline);
          ShowNotification(HeadlineRegenerated, Success);
      }
      isRegenerating := false;
    }
  }

  /** The dashboard from mount: a failed fetch stores nothing, a successful
      one stores the record, and a regenerate changes its headline only. */
  method Session(rating: JsonNumber, reviews: JsonNumber)
  {
    var app := new App();
    app.SetBusinessName("Cake & Co");
    app.SetLocation("Mumbai");
    assert !IsWhitespace(app.businessName[0]) && !IsWhitespace(app.location[0]);
    var sent := app.HandleSubmit(Fail);
    assert sent == Some(FetchBusinessData("Cake & Co", "Mumbai"));
    assert app.businessData == None && !app.isLoading;
    var m := Metrics(rating, reviews, "Best cakes in Mumbai");
    sent := app.HandleSubmit(Ok(m));
    assert app.businessData == Some(BusinessData(m, "Cake & Co", "Mumbai"));
    app.SetLocation("");
    sent := app.HandleRegenerateHeadline(Ok(HeadlineReply("Mumbai's sweetest")));
    assert sent == Some(RegenerateHeadline("Cake & Co", "Mumbai"));
    assert app.businessData == Some(BusinessData(m.(headline := "Mumbai's sweetest"), "Cake & Co", "Mumbai"));
    assert !app.isRegenerating;
  }
}
