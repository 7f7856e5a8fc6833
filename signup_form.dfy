/** `SignupForm`: the registration form. Its submit handler turns the
    comma-separated languages field into a list, calls the provider's
    `signup`, and either goes to the first chapter or shows the error. Like
    the panel's handlers, it is modelled as the code before the awaited call
    (`BeginSubmit`), the call, and the code after it (`EndSubmit`). */
module SignupForm {
  import opened Wrappers
  import opened Js
  import AuthContext

  const IntroPage := "/intro"
  const SubmitFailed := "Signup failed"

  /** The form's state: one string per input. */
  datatype FormData = FormData(
    email: string,
    username: string,
    password: string,
    fullName: string,
    softwareExperience: string,
    hardwareExperience: string,
    programmingLanguages: string,
    industryBackground: string,
    learningGoals: string
  )

  datatype Field =
    | Email | Username | Password | FullName | SoftwareExperience | HardwareExperience
    | ProgrammingLanguages | IndustryBackground | LearningGoals

  function Get(f: FormData, field: Field): string
  {
    match field
    case Email => f.email
    case Username => f.username
    case Password => f.password
    case FullName => f.fullName
    case SoftwareExperience => f.softwareExperience
    case HardwareExperience => f.hardwareExperience
    case ProgrammingLanguages => f.programmingLanguages
    case IndustryBackground => f.industryBackground
    case LearningGoals => f.learningGoals
  }

  /** `{ ...formData, [field]: value }`, what every input's `onChange` does. */
  function With(f: FormData, field: Field, value: string): (g: FormData)
    ensures Get(g, field) == value
    ensures forall other :: other != field ==> Get(g, other) == Get(f, other)
  {
    match field
    case Email => f.(email := value)
    case Username => f.(username := value)
    case Password => f.(password := value)
    case FullName => f.(fullName := value)
    case SoftwareExperience => f.(softwareExperience := value)
    case HardwareExperience => f.(hardwareExperience := value)
    case ProgrammingLanguages => f.(programmingLanguages := value)
    case IndustryBackground => f.(industryBackground := value)
    case LearningGoals => f.(learningGoals := value)
  }

  // ---------------------------------------------------------------------
  // The languages field

  /** `s ? s.split(',').map(l => l.trim()) : []`. An empty field gives no
      languages; otherwise there is one entry per comma-separated piece (empty
      pieces kept), each piece trimmed, so no entry holds a comma. */
  function ParseLanguages(field: string): (langs: seq<string>)
    ensures field == "" ==> langs == []
    ensures field != "" ==> |langs| == Count(field, ',') + 1
    ensures forall i :: 0 <= i < |langs| ==> ',' !in langs[i]
  {
    if field == "" then []
    else
      var pieces := Split(field, ',');
      var langs := seq(|pieces|, i requires 0 <= i < |pieces| => Trim(pieces[i]));
      forall i | 0 <= i < |langs|
        ensures ',' !in langs[i]
      {
        InfixLacks(pieces[i], langs[i], |pieces[i]| - |TrimStart(pieces[i])|, ',');
      }
      langs
  }

  /** An infix of a string lacks whatever the string lacks. */
  lemma InfixLacks(s: string, r: string, i: nat, c: char)
    requires i + |r| <= |s| && r == s[i..i + |r|]
    requires c !in s
    ensures c !in r
  {
  }

  /** Each entry is its comma-separated piece of the field with surrounding
      whitespace removed; empty pieces are kept. */
  lemma ParseLanguagesPieces(field: string)
    requires field != ""
    ensures |ParseLanguages(field)| == |Split(field, ',')|
    ensures forall i :: 0 <= i < |Split(field, ',')| ==> ParseLanguages(field)[i] == Trim(Split(field, ',')[i])
  {
  }

  /** A list of languages without commas or surrounding whitespace, typed in
      joined by commas, is read back as that list. */
  lemma ParseLanguagesJoin(langs: seq<string>)
    requires |langs| > 0 && Join(langs, ',') != ""
    requires forall i :: 0 <= i < |langs| ==> ',' !in langs[i] && Trim(langs[i]) == langs[i]
    ensures ParseLanguages(Join(langs, ',')) == langs
  {
    SplitJoin(langs, ',');
  }

  // ---------------------------------------------------------------------
  // The payload

  /** `{ ...formData, programming_languages: langs }`: every field as typed,
      except that the languages string is replaced by its parsed list. */
  function Payload(f: FormData): (d: AuthContext.SignupData)
    ensures d.email == f.email && d.username == f.username && d.password == f.password
    ensures d.fullName == f.fullName && d.industryBackground == f.industryBackground
    ensures d.learningGoals == f.learningGoals
    ensures d.softwareExperience == f.softwareExperience && d.hardwareExperience == f.hardwareExperience
    ensures d.programmingLanguages == ParseLanguages(f.programmingLanguages)
  {
    AuthContext.SignupData(f.email, f.username, f.password, f.fullName, f.softwareExperience,
      f.hardwareExperience, ParseLanguages(f.programmingLanguages), f.industryBackground, f.learningGoals)
  }

  // ---------------------------------------------------------------------
  // The form

  class Form {
    var formData: FormData
    var error: string
    var loading: bool
    var location: Option<string>

    /** The form opens with both experience levels at 'beginner' and every
        other field empty, no error and not loading. */
    constructor ()
      ensures formData == FormData("", "", "", "", "beginner", "beginner", "", "", "")
      ensures error == "" && !loading && location == None
    {
      formData := FormData("", "", "", "", "beginner", "beginner", "", "", "");
      error, loading, location := "", false, None;
    }

    /** An input's `onChange`. */
    method Change(field: Field, value: string)
      modifies this
      ensures formData == With(old(formData), field, value)
      ensures error == old(error) && loading == old(loading) && location == old(location)
    {
      formData := With(formData, field, value);
    }

    /** Up to the awaited call: clear the error, show the form as loading and
        build the payload. */
    method BeginSubmit() returns (payload: AuthContext.SignupData)
      modifies this
      ensures payload == Payload(formData)
      ensures error == "" && loading
      ensures formData == old(formData) && location == old(location)
    {
      error := "";
      loading := true;
      var langs := if formData.programmingLanguages != "" then
                     var pieces := Split(formData.programmingLanguages, ',');
                     seq(|pieces|, i requires 0 <= i < |pieces| => Trim(pieces[i]))
                   else [];
      payload := AuthContext.SignupData(formData.email, formData.username, formData.password,
        formData.fullName, formData.softwareExperience, formData.hardwareExperience, langs,
        formData.industryBackground, formData.learningGoals);
    }

    /** After the call: go to the first chapter on success, show the thrown
        message (or the default for an empty one) on failure; stop loading
        either way. */
    method EndSubmit(outcome: Outcome<string>)
      modifies this
      ensures !loading && formData == old(formData)
      ensures outcome.Pass? ==> location == Some(IntroPage) && error == old(error)
      ensures outcome.Fail? ==> location == old(location) && error == OrElse(Some(outcome.error), SubmitFailed)
      ensures outcome.Fail? ==> error != ""
    {
      if outcome.Pass? {
        location := Some(IntroPage);
      } else {
        error := OrElse(Some(outcome.error), SubmitFailed);
      }
      loading := false;
    }

    /** `handleSubmit`, the reply standing for the one the provider awaits. */
    method HandleSubmit(auth: AuthContext.AuthProvider, reply: AuthContext.Reply)
      requires auth.Valid()
      modifies this, auth
      ensures auth.Valid() && !loading && formData == old(formData)
      ensures auth.sent == old(auth.sent) +
        [AuthContext.Request(auth.apiBaseUrl + AuthContext.SignupPath, AuthContext.Registration(Payload(formData)))]
      ensures reply.ok ==>
        location == Some(IntroPage) && error == "" &&
        auth.Snapshot() == AuthContext.SignedIn(old(auth.Snapshot()), reply.accessToken, reply.user)
      ensures !reply.ok ==>
        location == old(location) && error == OrElse(reply.detail, AuthContext.SignupFailed) &&
        error != "" && auth.Snapshot() == old(auth.Snapshot())
    {
      var payload := BeginSubmit();
      var outcome := auth.Signup(payload, reply);
      EndSubmit(outcome);
    }
  }
}
