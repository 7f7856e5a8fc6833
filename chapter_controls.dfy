/** `ChapterControls`: the panel above a chapter that swaps its displayed text
    for a personalized or an Urdu variant fetched from the backend, and back.
    Each async handler awaits the `fetch` and then `response.json()`; one
    `Reply` parameter stands for both. A handler is modelled as the code
    before the first await (`Begin…`, which sends the request) and the code
    after the second (`End…`, which receives the reply); the whole handler
    (`Handle…`) runs one after the other. The displayed text belongs to the hosting page; `displayed` is
    what the panel last handed to `onContentUpdate`. `window.alert` and
    `window.location.href` are recorded, not performed. */
module ChapterControls {
  import opened Wrappers
  import opened Js
  import opened UserCodec
  import ApiBaseUrl

  const PersonalizePath := "/api/v1/content/personalize"
  const TranslatePath := "/api/v1/content/translate"
  const LoginPage := "/login"
  const LoginPrompt := "Please login to personalize content"
  const PersonalizeFailed := "Failed to personalize content"
  const TranslateFailed := "Failed to translate content"
  const TargetLanguage := "ur"

  /** The JSON body of a POST. */
  datatype Body =
    | PersonalizeBody(chapterPath: string, content: string)
    | TranslateBody(content: string, targetLanguage: string)

  /** A POST and the value of its `Authorization` header, if any. */
  datatype Request = Request(url: string, authorization: Option<string>, body: Body)

  /** A backend answer: `response.ok`, the variant text
      (`personalized_content` or `translated_content`) and `detail`. */
  datatype Reply = Reply(ok: bool, content: string, detail: Option<string>)

  /** The panel's React state together with the displayed text. */
  datatype View = View(
    displayed: string,
    personalizing: bool,
    translating: bool,
    error: string,
    showingPersonalized: bool,
    showingTranslated: bool
  )

  function Bearer(token: string): string
  {
    "Bearer " + token
  }

  class Panel {
    const apiBaseUrl: string
    const chapterPath: string
    const originalContent: string
    var displayed: string
    var personalizing: bool
    var translating: bool
    var error: string
    var showingPersonalized: bool
    var showingTranslated: bool
    var sent: seq<Request>
    var alerts: seq<string>
    var location: Option<string>

    function State(): View
      reads this
    {
      View(displayed, personalizing, translating, error, showingPersonalized, showingTranslated)
    }

    /** At most one variant is flagged, and with neither flagged the original
        text is displayed. */
    ghost predicate Valid()
      reads this
    {
      !(showingPersonalized && showingTranslated) &&
      (!showingPersonalized && !showingTranslated ==> displayed == originalContent)
    }

    constructor (env: ApiBaseUrl.Env, path: string, original: string)
      ensures Valid()
      ensures apiBaseUrl == ApiBaseUrl.Resolve(env) && chapterPath == path && originalContent == original
      ensures State() == View(original, false, false, "", false, false)
      ensures sent == [] && alerts == [] && location == None
    {
      apiBaseUrl := ApiBaseUrl.Resolve(env);
      chapterPath, originalContent := path, original;
      displayed := original;
      personalizing, translating, error := false, false, "";
      showingPersonalized, showingTranslated := false, false;
      sent, alerts, location := [], [], None;
    }

    // -------------------------------------------------------------------
    // Personalize

    /** Without a user and a non-empty token: prompt, go to the login page and
        send nothing. Otherwise clear the error, mark the panel busy and send
        the original text with the bearer token. */
    method BeginPersonalize(user: Option<User>, token: Option<string>) returns (started: bool)
      requires Valid()
      modifies this
      ensures Valid()
      ensures started <==> user.Some? && Truthy(token)
      ensures !started ==>
        State() == old(State()) && sent == old(sent) &&
        alerts == old(alerts) + [LoginPrompt] && location == Some(LoginPage)
      ensures started ==>
        State() == old(State()).(error := "", personalizing := true) &&
        sent == old(sent) + [Request(apiBaseUrl + PersonalizePath, Some(Bearer(token.value)),
                                     PersonalizeBody(chapterPath, originalContent))] &&
        alerts == old(alerts) && location == old(location)
    {
      if user.None? || !Truthy(token) {
        alerts := alerts + [LoginPrompt];
        location := Some(LoginPage);
        return false;
      }
      error := "";
      personalizing := true;
      sent := sent + [Request(apiBaseUrl + PersonalizePath, Some(Bearer(token.value)),
                              PersonalizeBody(chapterPath, originalContent))];
      started := true;
    }

    /** On success, display the personalized text and flag it (clearing the
        translated flag); on failure, set the error and leave the display
        alone. Either way the panel is no longer busy personalizing. */
    method EndPersonalize(reply: Reply)
      requires Valid()
      modifies this
      ensures Valid()
      ensures reply.ok ==>
        State() == old(State()).(displayed := reply.content, showingPersonalized := true,
                                 showingTranslated := false, personalizing := false)
      ensures !reply.ok ==>
        State() == old(State()).(error := OrElse(reply.detail, PersonalizeFailed), personalizing := false)
      ensures !reply.ok ==> error != ""
      ensures sent == old(sent) && alerts == old(alerts) && location == old(location)
    {
      if reply.ok {
        displayed := reply.content;
        showingPersonalized := true;
        showingTranslated := false;
      } else {
        error := OrElse(reply.detail, PersonalizeFailed);
      }
      personalizing := false;
    }

    /** `handlePersonalize`, the reply standing for the one awaited. */
    method HandlePersonalize(user: Option<User>, token: Option<string>, reply: Reply) returns (started: bool)
      requires Valid()
      modifies this
      ensures Valid()
      ensures started <==> user.Some? && Truthy(token)
      ensures !started ==>
        State() == old(State()) && sent == old(sent) &&
        alerts == old(alerts) + [LoginPrompt] && location == Some(LoginPage)
      ensures started ==>
        sent == old(sent) + [Request(apiBaseUrl + PersonalizePath, Some(Bearer(token.value)),
                                     PersonalizeBody(chapterPath, originalContent))] &&
        alerts == old(alerts) && location == old(location)
      ensures started && reply.ok ==>
        State() == old(State()).(displayed := reply.content, showingPersonalized := true,
                                 showingTranslated := false, error := "", personalizing := false)
      ensures started && !reply.ok ==>
        State() == old(State()).(error := OrElse(reply.detail, PersonalizeFailed), personalizing := false) &&
        error != ""
    {
      started := BeginPersonalize(user, token);
      if started {
        EndPersonalize(reply);
      }
    }

    // -------------------------------------------------------------------
    // Translate

    /** Clear the error, mark the panel busy and send the original text for
        translation to Urdu, with the bearer token only when there is a
        non-empty one. */
    method BeginTranslate(token: Option<string>)
      requires Valid()
      modifies this
      ensures Valid()
      ensures State() == old(State()).(error := "", translating := true)
      ensures sent == old(sent) + [Request(apiBaseUrl + TranslatePath,
                                           if Truthy(token) then Some(Bearer(token.value)) else None,
                                           TranslateBody(originalContent, TargetLanguage))]
      ensures alerts == old(alerts) && location == old(location)
    {
      error := "";
      translating := true;
      var authorization := if Truthy(token) then Some(Bearer(token.value)) else None;
      sent := sent + [Request(apiBaseUrl + TranslatePath, authorization,
                              TranslateBody(originalContent, TargetLanguage))];
    }

    /** On success, display the translation and flag it (clearing the
        personalized flag); on failure, set the error and leave the display
        alone. Either way the panel is no longer busy translating. */
    method EndTranslate(reply: Reply)
      requires Valid()
      modifies this
      ensures Valid()
      ensures reply.ok ==>
        State() == old(State()).(displayed := reply.content, showingTranslated := true,
                                 showingPersonalized := false, translating := false)
      ensures !reply.ok ==>
        State() == old(State()).(error := OrElse(reply.detail, TranslateFailed), translating := false)
      ensures !reply.ok ==> error != ""
      ensures sent == old(sent) && alerts == old(alerts) && location == old(location)
    {
      if reply.ok {
        displayed := reply.content;
        showingTranslated := true;
        showingPersonalized := false;
      } else {
        error := OrElse(reply.detail, TranslateFailed);
      }
      translating := false;
    }

    /** `handleTranslate`, the reply standing for the one awaited. */
    method HandleTranslate(token: Option<string>, reply: Reply)
      requires Valid()
      modifies this
      ensures Valid()
      ensures sent == old(sent) + [Request(apiBaseUrl + TranslatePath,
                                           if Truthy(token) then Some(Bearer(token.value)) else None,
                                           TranslateBody(originalContent, TargetLanguage))]
      ensures alerts == old(alerts) && location == old(location)
      ensures reply.ok ==>
        State() == old(State()).(displayed := reply.content, showingTranslated := true,
                                 showingPersonalized := false, error := "", translating := false)
      ensures !reply.ok ==>
        State() == old(State()).(error := OrElse(reply.detail, TranslateFailed), translating := false) &&
        error != ""
    {
      BeginTranslate(token);
      EndTranslate(reply);
    }

    // -------------------------------------------------------------------
    // Reset

    /** `handleReset`: display the original text, clear both flags and the
        error; no request. */
    method Reset()
      requires Valid()
      modifies this
      ensures Valid()
      ensures State() == old(State()).(displayed := originalContent, showingPersonalized := false,
                                       showingTranslated := false, error := "")
      ensures sent == old(sent) && alerts == old(alerts) && location == old(location)
    {
      displayed := originalContent;
      showingPersonalized := false;
      showingTranslated := false;
      error := "";
    }
  }
}
