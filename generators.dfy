/** The three record generators (script.js, `generatePositiveTests`,
    `generateNegativeTests`, `generateEdgeCases`). Each looks for keywords in the
    lower-cased story and pushes the matching templates in source order; the
    `testFormat` and `index` parameters are accepted and never read. */
module Generators {
  import opened Text
  import opened Records

  /** `userStory.toLowerCase().includes(word)`. */
  predicate Mentions(story: string, word: string) {
    Contains(Lower(story), word)
  }

  predicate MentionsLogin(story: string) {
    Mentions(story, "login")
  }

  /** The cart branch needs both "add" and "cart", anywhere and in either order. */
  predicate MentionsCart(story: string) {
    Mentions(story, "add") && Mentions(story, "cart")
  }

  predicate MentionsProfile(story: string) {
    Mentions(story, "profile")
  }

  predicate MentionsAttempt(story: string) {
    Mentions(story, "attempt")
  }

  /** `[t]` when `c` holds, else nothing: one guarded `tests.push`. */
  function When(c: bool, t: Template): (ts: seq<Template>)
    ensures t in ts <==> c
    ensures |ts| <= 1 && forall u <- ts :: u == t
  {
    if c then [t] else []
  }

  /** The templates `generatePositiveTests` pushes: login (and, above the basic
      detail level, remember-me), then cart, then profile, and the generic one
      when nothing matched. */
  function PositiveTemplates(story: string, detailLevel: string): (ts: seq<Template>)
    ensures 1 <= |ts| <= 4 && Ascending(ts)
    ensures forall t <- ts :: KindOf(t) == Positive
    ensures LoginValid in ts <==> MentionsLogin(story)
    ensures LoginRememberMe in ts <==> MentionsLogin(story) && detailLevel != "basic"
    ensures CartAddValid in ts <==> MentionsCart(story)
    ensures ProfileUpdate in ts <==> MentionsProfile(story)
    ensures GenericPositive in ts <==>
              !MentionsLogin(story) && !MentionsCart(story) && !MentionsProfile(story)
  {
    var login, cart, profile := MentionsLogin(story), MentionsCart(story), MentionsProfile(story);
    var remember := login && detailLevel != "basic";
    PositivePicks(login, remember, cart, profile);
    var found := When(login, LoginValid) + When(remember, LoginRememberMe)
               + When(cart, CartAddValid) + When(profile, ProfileUpdate);
    if found == [] then [GenericPositive] else found
  }

  /** The guarded pushes of `generatePositiveTests`, for any outcome of its tests. */
  lemma PositivePicks(login: bool, remember: bool, cart: bool, profile: bool)
    requires remember ==> login
    ensures var found := When(login, LoginValid) + When(remember, LoginRememberMe)
                       + When(cart, CartAddValid) + When(profile, ProfileUpdate);
            |found| <= 4 && Ascending(found) && (forall t <- found :: KindOf(t) == Positive)
            && (found == [] <==> !login && !cart && !profile)
            && (LoginValid in found <==> login) && (LoginRememberMe in found <==> remember)
            && (CartAddValid in found <==> cart) && (ProfileUpdate in found <==> profile)
            && GenericPositive !in found
  {
    var a := When(login, LoginValid) + When(remember, LoginRememberMe);
    var b := a + When(cart, CartAddValid);
    AppendLater(a, cart, CartAddValid);
    AppendLater(b, profile, ProfileUpdate);
  }

  /** Appending a template that comes after every template already picked
      keeps the picks in source order. */
  lemma AppendLater(ts: seq<Template>, c: bool, t: Template)
    requires Ascending(ts) && forall u <- ts :: Ordinal(u) < Ordinal(t)
    ensures Ascending(ts + When(c, t))
    ensures forall u <- ts + When(c, t) :: u in ts || (c && u == t)
  {
  }

  /** The templates `generateNegativeTests` pushes: incorrect credentials (and,
      when the story mentions an attempt, the lockout), then the invalid cart
      item, and the generic one when nothing matched. There is no profile branch. */
  function NegativeTemplates(story: string): (ts: seq<Template>)
    ensures 1 <= |ts| <= 3 && Ascending(ts)
    ensures forall t <- ts :: KindOf(t) == Negative
    ensures LoginIncorrect in ts <==> MentionsLogin(story)
    ensures LoginLockout in ts <==> MentionsLogin(story) && MentionsAttempt(story)
    ensures CartAddInvalid in ts <==> MentionsCart(story)
    ensures GenericNegative in ts <==> !MentionsLogin(story) && !MentionsCart(story)
  {
    var login, cart := MentionsLogin(story), MentionsCart(story);
    var lockout := login && MentionsAttempt(story);
    NegativePicks(login, lockout, cart);
    var found := When(login, LoginIncorrect) + When(lockout, LoginLockout)
               + When(cart, CartAddInvalid);
    if found == [] then [GenericNegative] else found
  }

  /** The guarded pushes of `generateNegativeTests`, for any outcome of its tests. */
  lemma NegativePicks(login: bool, lockout: bool, cart: bool)
    requires lockout ==> login
    ensures var found := When(login, LoginIncorrect) + When(lockout, LoginLockout)
                       + When(cart, CartAddInvalid);
            |found| <= 3 && Ascending(found) && (forall t <- found :: KindOf(t) == Negative)
            && (found == [] <==> !login && !cart)
            && (LoginIncorrect in found <==> login) && (LoginLockout in found <==> lockout)
            && (CartAddInvalid in found <==> cart) && GenericNegative !in found
  {
    AppendLater(When(login, LoginIncorrect) + When(lockout, LoginLockout), cart, CartAddInvalid);
  }

  /** The templates `generateEdgeCases` pushes: one per matched keyword group,
      and none at all when nothing matched. */
  function EdgeTemplates(story: string): (ts: seq<Template>)
    ensures |ts| <= 3 && Ascending(ts)
    ensures forall t <- ts :: KindOf(t) == Edge
    ensures LoginEmpty in ts <==> MentionsLogin(story)
    ensures CartOutOfStock in ts <==> MentionsCart(story)
    ensures ProfileLongValues in ts <==> MentionsProfile(story)
    ensures ts == [] <==> !MentionsLogin(story) && !MentionsCart(story) && !MentionsProfile(story)
  {
    var login, cart, profile := MentionsLogin(story), MentionsCart(story), MentionsProfile(story);
    EdgePicks(login, cart, profile);
    When(login, LoginEmpty) + When(cart, CartOutOfStock) + When(profile, ProfileLongValues)
  }

  /** The guarded pushes of `generateEdgeCases`, for any outcome of its tests. */
  lemma EdgePicks(login: bool, cart: bool, profile: bool)
    ensures var found := When(login, LoginEmpty) + When(cart, CartOutOfStock)
                       + When(profile, ProfileLongValues);
            |found| <= 3 && Ascending(found) && (forall t <- found :: KindOf(t) == Edge)
            && (found == [] <==> !login && !cart && !profile)
            && (LoginEmpty in found <==> login) && (CartOutOfStock in found <==> cart)
            && (ProfileLongValues in found <==> profile)
  {
    AppendLater(When(login, LoginEmpty) + When(cart, CartOutOfStock), profile, ProfileLongValues);
  }

  /** `generatePositiveTests(userStory, testFormat, detailLevel, index, includeSetup)`. */
  function PositiveTests(story: string, testFormat: string, detailLevel: string, index: int,
                         includeSetup: string): (tests: seq<TestRecord>)
    ensures tests == RenderAll(PositiveTemplates(story, detailLevel), includeSetup)
    ensures 1 <= |tests| <= 4
    ensures forall r <- tests :: r.kind == Positive
    ensures includeSetup != "yes" ==> forall r <- tests :: r.setup == [] && r.teardown == []
  {
    var ts := PositiveTemplates(story, detailLevel);
    RenderAllOfKind(ts, includeSetup, Positive);
    RenderAll(ts, includeSetup)
  }

  /** `generateNegativeTests(userStory, testFormat, detailLevel, index, includeSetup)`. */
  function NegativeTests(story: string, testFormat: string, detailLevel: string, index: int,
                         includeSetup: string): (tests: seq<TestRecord>)
    ensures tests == RenderAll(NegativeTemplates(story), includeSetup)
    ensures 1 <= |tests| <= 3
    ensures forall r <- tests :: r.kind == Negative
    ensures includeSetup != "yes" ==> forall r <- tests :: r.setup == [] && r.teardown == []
  {
    var ts := NegativeTemplates(story);
    RenderAllOfKind(ts, includeSetup, Negative);
    RenderAll(ts, includeSetup)
  }

  /** `generateEdgeCases(userStory, testFormat, detailLevel, index, includeSetup)`. */
  function EdgeTests(story: string, testFormat: string, detailLevel: string, index: int,
                     includeSetup: string): (tests: seq<TestRecord>)
    ensures tests == RenderAll(EdgeTemplates(story), includeSetup)
    ensures |tests| <= 3
    ensures tests == [] <==> !MentionsLogin(story) && !MentionsCart(story) && !MentionsProfile(story)
    ensures forall r <- tests :: r.kind == Edge
    ensures includeSetup != "yes" ==> forall r <- tests :: r.setup == [] && r.teardown == []
  {
    var ts := EdgeTemplates(story);
    RenderAllOfKind(ts, includeSetup, Edge);
    RenderAll(ts, includeSetup)
  }

  /** A story that mentions its profile but neither logging in nor adding to
      a cart still gets a negative test: the generic one. */
  lemma ProfileOnlyNegative(story: string)
    requires MentionsProfile(story) && !MentionsLogin(story) && !MentionsCart(story)
    ensures NegativeTemplates(story) == [GenericNegative]
  {
  }

  /** The positive generator yields one login record at the basic detail level
      and two above it. */
  lemma LoginRecordCount(story: string, detailLevel: string)
    requires MentionsLogin(story)
    ensures var ts := PositiveTemplates(story, detailLevel);
            |ts| >= 1 && ts[0] == LoginValid &&
            (detailLevel == "basic" <==> (|ts| == 1 || ts[1] != LoginRememberMe))
  {
  }

  /** Since `testFormat` and `index` are never read, every call with the same
      story, detail level and setup choice returns the same records. */
  lemma GeneratorsIgnoreFormatAndIndex(story: string, f: string, f': string, d: string,
                                       i: int, i': int, s: string)
    ensures PositiveTests(story, f, d, i, s) == PositiveTests(story, f', d, i', s)
    ensures NegativeTests(story, f, d, i, s) == NegativeTests(story, f', d, i', s)
    ensures EdgeTests(story, f, d, i, s) == EdgeTests(story, f', d, i', s)
  {
  }
}
