/** `useApiBaseUrl`: the origin every backend call is made against. The
    hook's inputs (browser globals, build-time site configuration) are the
    fields of one `Env` record, so the hook is a total function of it. */
module ApiBaseUrl {
  import opened Wrappers
  import opened Js

  const DefaultLocal := "http://localhost:8000"

  /** What the hook reads. `hasWindow` is false during the static build
      (server render), where no browser field is looked at. */
  datatype Env = Env(
    hasWindow: bool,
    storedOverride: Option<string>,  // localStorage.getItem('API_BASE_URL')
    injected: Option<string>,        // window.__API_BASE_URL__
    configBaseUrl: Option<string>,   // siteConfig.customFields.apiBaseUrl
    sameOriginApi: bool,             // !!siteConfig.customFields.sameOriginApi
    origin: string,                  // window.location.origin
    hostname: string                 // window.location.hostname
  )

  /** The test `/^(http|https):\/\//`. */
  predicate IsAbsolute(s: string)
  {
    StartsWith(s, "http://") || StartsWith(s, "https://")
  }

  function FromLocalStorage(e: Env): Option<string>
  {
    if e.hasWindow then e.storedOverride else None
  }

  function FromWindow(e: Env): Option<string>
  {
    if e.hasWindow then e.injected else None
  }

  function Hostname(e: Env): string
  {
    if e.hasWindow then e.hostname else ""
  }

  /** The default, but only when the page itself is served from localhost. */
  function Inferred(e: Env): Option<string>
  {
    if Hostname(e) == "localhost" || Hostname(e) == "127.0.0.1" then Some(DefaultLocal) else None
  }

  /** The same-origin branch is taken. */
  predicate UsesSameOrigin(e: Env)
  {
    e.sameOriginApi && e.hasWindow && e.origin != "" && IsAbsolute(e.origin)
  }

  /** `fromLocalStorage || fromWindow || fromConfig || inferred || defaultLocal`,
      associated to the left as JavaScript does. */
  function Candidate(e: Env): string
  {
    OrElse(Or(Or(Or(FromLocalStorage(e), FromWindow(e)), e.configBaseUrl), Inferred(e)), DefaultLocal)
  }

  /** The hook's result: the page origin in same-origin mode, otherwise the
      candidate when it is absolute and the default when it is not. The result
      is always absolute; in same-origin mode nothing else is consulted; with
      no window only the configured value can matter. */
  function Resolve(e: Env): (r: string)
    ensures IsAbsolute(r)
    ensures UsesSameOrigin(e) ==> r == e.origin
    ensures !e.hasWindow ==>
      r == (if Truthy(e.configBaseUrl) && IsAbsolute(e.configBaseUrl.value) then e.configBaseUrl.value else DefaultLocal)
  {
    assert IsAbsolute(DefaultLocal) by {
      assert DefaultLocal[..|"http://"|] == "http://";
    }
    if UsesSameOrigin(e) then e.origin
    else
      var resolved := Candidate(e);
      if IsAbsolute(resolved) then resolved else DefaultLocal
  }

  // ---------------------------------------------------------------------
  // The priority chain, stated independently of `||`

  /** The sources in priority order, before the final default. */
  function Sources(e: Env): seq<Option<string>>
  {
    [FromLocalStorage(e), FromWindow(e), e.configBaseUrl, Inferred(e)]
  }

  /** The value of the first truthy source, or `fallback` when none is. */
  function FirstTruthy(sources: seq<Option<string>>, fallback: string): string
  {
    if sources == [] then fallback
    else if Truthy(sources[0]) then sources[0].value
    else FirstTruthy(sources[1..], fallback)
  }

  /** `FirstTruthy` picks the value at the least truthy index. */
  lemma {:induction false} FirstTruthyAt(sources: seq<Option<string>>, fallback: string, i: nat)
    requires i < |sources| && Truthy(sources[i])
    requires forall j :: 0 <= j < i ==> !Truthy(sources[j])
    ensures FirstTruthy(sources, fallback) == sources[i].value
  {
    if i > 0 {
      FirstTruthyAt(sources[1..], fallback, i - 1);
    }
  }

  /** With no truthy source, `FirstTruthy` yields the fallback. */
  lemma {:induction false} FirstTruthyNone(sources: seq<Option<string>>, fallback: string)
    requires forall j :: 0 <= j < |sources| ==> !Truthy(sources[j])
    ensures FirstTruthy(sources, fallback) == fallback
  {
    if sources != [] {
      FirstTruthyNone(sources[1..], fallback);
    }
  }

  /** The left-associated `||` chain of the hook is the first truthy source. */
  lemma CandidateIsFirstTruthy(e: Env)
    ensures Candidate(e) == FirstTruthy(Sources(e), DefaultLocal)
  {
    var s := Sources(e);
    if Truthy(s[0]) {
      FirstTruthyAt(s, DefaultLocal, 0);
    } else if Truthy(s[1]) {
      FirstTruthyAt(s, DefaultLocal, 1);
    } else if Truthy(s[2]) {
      FirstTruthyAt(s, DefaultLocal, 2);
    } else if Truthy(s[3]) {
      FirstTruthyAt(s, DefaultLocal, 3);
    } else {
      FirstTruthyNone(s, DefaultLocal);
    }
  }

  // ---------------------------------------------------------------------
  // Properties of the resolution

  /** Outside same-origin mode, an absolute candidate is returned unchanged
      and a relative one is replaced by the default. */
  lemma CandidateGuard(e: Env)
    requires !UsesSameOrigin(e)
    ensures IsAbsolute(Candidate(e)) ==> Resolve(e) == Candidate(e)
    ensures !IsAbsolute(Candidate(e)) ==> Resolve(e) == DefaultLocal
  {
  }

  /** A relative, non-empty override does not fall through to the next
      source: even if the configured value is absolute, the result is the
      default. */
  lemma RelativeOverrideForcesDefault(e: Env)
    requires !UsesSameOrigin(e) && e.hasWindow
    requires Truthy(e.storedOverride) && !IsAbsolute(e.storedOverride.value)
    ensures Resolve(e) == DefaultLocal
  {
  }

  /** The same, for an injected global that wins over the configured value. */
  lemma RelativeInjectedForcesDefault(e: Env)
    requires !UsesSameOrigin(e) && e.hasWindow && !Truthy(e.storedOverride)
    requires Truthy(e.injected) && !IsAbsolute(e.injected.value)
    ensures Resolve(e) == DefaultLocal
  {
  }

  /** In same-origin mode no other source is consulted: two environments that
      agree on the mode and the origin resolve alike. */
  lemma SameOriginIgnoresSources(e: Env, e': Env)
    requires UsesSameOrigin(e)
    requires e'.sameOriginApi == e.sameOriginApi && e'.hasWindow == e.hasWindow && e'.origin == e.origin
    ensures Resolve(e') == Resolve(e) == e.origin
  {
  }

  /** The page hostname never changes the result: the only value it can
      contribute is the default, which is also the last resort. */
  lemma HostnameIrrelevant(e: Env, h: string)
    ensures Resolve(e.(hostname := h)) == Resolve(e)
  {
    var e' := e.(hostname := h);
    CandidateIsFirstTruthy(e);
    CandidateIsFirstTruthy(e');
    assert Candidate(e') == Candidate(e);
  }

  /** The result is one of the inputs or the default. */
  lemma ResolveIsASource(e: Env)
    ensures var r := Resolve(e);
      r == DefaultLocal || r == e.origin ||
      (exists i :: 0 <= i < |Sources(e)| && Truthy(Sources(e)[i]) && r == Sources(e)[i].value)
  {
    var s := Sources(e);
    if !UsesSameOrigin(e) && IsAbsolute(Candidate(e)) {
      CandidateIsFirstTruthy(e);
      if Truthy(s[0]) {
        assert Resolve(e) == s[0].value;
      } else if Truthy(s[1]) {
        assert Resolve(e) == s[1].value;
      } else if Truthy(s[2]) {
        assert Resolve(e) == s[2].value;
      } else if Truthy(s[3]) {
        assert Resolve(e) == s[3].value;
      }
    }
  }
}
