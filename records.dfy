/** The objects the generator builds: one record per test, one case per user
    story, and the fixed record templates the three generators choose from. */
module Records {

  /** The `type` tag of a record. */
  datatype TestType = Positive | Negative | Edge

  /** The tag as it appears in the record and in the CSS class of the page. */
  function Tag(t: TestType): (s: string)
    ensures s == "positive" || s == "negative" || s == "edge"
  {
    match t
    case Positive => "positive"
    case Negative => "negative"
    case Edge => "edge"
  }

  /** Distinct types are shown with distinct tags. */
  lemma TagInjective(t: TestType, u: TestType)
    ensures Tag(t) == Tag(u) ==> t == u
  {
    if t != u {
      assert Tag(t)[0] != Tag(u)[0];
    }
  }

  /** One generated test: the object literal pushed by the generators. */
  datatype TestRecord = TestRecord(
    name: string,
    kind: TestType,
    description: string,
    steps: seq<string>,
    expected: string,
    setup: seq<string>,
    teardown: seq<string>)

  /** One test case: a user story with its number, title and tests. */
  datatype TestCase = TestCase(id: nat, title: string, description: string, tests: seq<TestRecord>)

  /** The twelve record templates, named after what they test. */
  datatype Template =
    | LoginValid | LoginRememberMe | CartAddValid | ProfileUpdate | GenericPositive
    | LoginIncorrect | LoginLockout | CartAddInvalid | GenericNegative
    | LoginEmpty | CartOutOfStock | ProfileLongValues

  /** The position of a template in the source, which is also the order in
      which a generator pushes the templates it picks. */
  function Ordinal(t: Template): (n: nat)
    ensures n < 12
  {
    match t
    case LoginValid => 0
    case LoginRememberMe => 1
    case CartAddValid => 2
    case ProfileUpdate => 3
    case GenericPositive => 4
    case LoginIncorrect => 5
    case LoginLockout => 6
    case CartAddInvalid => 7
    case GenericNegative => 8
    case LoginEmpty => 9
    case CartOutOfStock => 10
    case ProfileLongValues => 11
  }

  /** Templates are in strictly increasing source order, so none repeats. */
  predicate Ascending(ts: seq<Template>) {
    forall i, j | 0 <= i < j < |ts| :: Ordinal(ts[i]) < Ordinal(ts[j])
  }

  /** The generator a template belongs to. */
  function KindOf(t: Template): TestType {
    if Ordinal(t) < 5 then Positive else if Ordinal(t) < 9 then Negative else Edge
  }

  /** `includeSetup === 'yes' ? items : []`. */
  function IfYes(includeSetup: string, items: seq<string>): (r: seq<string>)
    ensures r == [] || r == items
    ensures includeSetup != "yes" ==> r == []
  {
    if includeSetup == "yes" then items else []
  }

  /** The record's `name`. */
  function Name(t: Template): string {
    match t
    case LoginValid =>
      "Valid login with correct credentials"
    case LoginRememberMe =>
      "Login with remember me option"
    case CartAddValid =>
      "Add valid item to shopping cart"
    case ProfileUpdate =>
      "Update profile information"
    case GenericPositive =>
      "Successful operation with valid inputs"
    case LoginIncorrect =>
      "Login with incorrect credentials"
    case LoginLockout =>
      "Login after multiple failed attempts"
    case CartAddInvalid =>
      "Add invalid item to shopping cart"
    case GenericNegative =>
      "Operation failure with invalid inputs"
    case LoginEmpty =>
      "Login with empty credentials"
    case CartOutOfStock =>
      "Add out-of-stock item to cart"
    case ProfileLongValues =>
      "Update profile with extremely long values"
  }

  /** The record's `description`. */
  function Description(t: Template): string {
    match t
    case LoginValid =>
      "Verify that a user can successfully login with valid credentials"
    case LoginRememberMe =>
      "Verify that login persists when 'Remember Me' is selected"
    case CartAddValid =>
      "Verify that a user can add a valid product to the shopping cart"
    case ProfileUpdate =>
      "Verify that a user can update their profile information"
    case GenericPositive =>
      "Verify that the functionality works correctly with valid inputs"
    case LoginIncorrect =>
      "Verify that login fails with incorrect credentials"
    case LoginLockout =>
      "Verify that account gets locked after multiple failed login attempts"
    case CartAddInvalid =>
      "Verify that invalid items cannot be added to the cart"
    case GenericNegative =>
      "Verify that the functionality fails gracefully with invalid inputs"
    case LoginEmpty =>
      "Verify behavior when login is attempted with empty fields"
    case CartOutOfStock =>
      "Verify behavior when attempting to add an out-of-stock item"
    case ProfileLongValues =>
      "Verify behavior when profile fields contain maximum allowed characters"
  }

  /** The record's `steps`. */
  function Steps(t: Template): seq<string> {
    match t
    case LoginValid =>
      ["Navigate to the login page",
       "Enter a valid email address",
       "Enter the correct password",
       "Click the login button",
       "Verify that the user is redirected to the dashboard",
       "Verify that the user session is established"]
    case LoginRememberMe =>
      ["Navigate to the login page",
       "Enter valid credentials",
       "Check the 'Remember Me' checkbox",
       "Click the login button",
       "Close and reopen the browser",
       "Navigate to the application URL"]
    case CartAddValid =>
      ["Navigate to the product catalog",
       "Select a product that is in stock",
       "Click the 'Add to Cart' button",
       "Verify that the cart icon updates with the item count",
       "Navigate to the shopping cart page",
       "Verify the product is listed in the cart"]
    case ProfileUpdate =>
      ["Login to the application",
       "Navigate to the profile settings page",
       "Update the name field with a new value",
       "Update the email field with a valid email",
       "Click the 'Save Changes' button",
       "Verify success message is displayed",
       "Logout and login again to verify changes persist"]
    case GenericPositive =>
      ["Navigate to the relevant page/feature",
       "Provide valid input data",
       "Execute the operation",
       "Verify the operation completes successfully",
       "Verify the expected outcome is achieved"]
    case LoginIncorrect =>
      ["Navigate to the login page",
       "Enter a valid email address",
       "Enter an incorrect password",
       "Click the login button"]
    case LoginLockout =>
      ["Navigate to the login page",
       "Enter a valid email address",
       "Enter incorrect password 5 times consecutively",
       "Attempt to login with correct credentials on the 6th attempt"]
    case CartAddInvalid =>
      ["Navigate to the product catalog",
       "Attempt to add a product that doesn't exist (via URL manipulation)",
       "Verify the system response"]
    case GenericNegative =>
      ["Navigate to the relevant page/feature",
       "Provide invalid or malformed input data",
       "Execute the operation",
       "Verify the operation fails appropriately"]
    case LoginEmpty =>
      ["Navigate to the login page",
       "Leave both email and password fields empty",
       "Click the login button"]
    case CartOutOfStock =>
      ["Navigate to a product that is out of stock",
       "Attempt to add the product to the cart"]
    case ProfileLongValues =>
      ["Login to the application",
       "Navigate to profile settings",
       "Enter the maximum allowed characters in each field",
       "Save the changes"]
  }

  /** The record's `expected` result. */
  function Expected(t: Template): string {
    match t
    case LoginValid =>
      "User should be successfully logged in and redirected to the dashboard"
    case LoginRememberMe =>
      "User should remain logged in without needing to re-enter credentials"
    case CartAddValid =>
      "Product should be successfully added to the cart with correct details"
    case ProfileUpdate =>
      "Profile information should be updated successfully and persist after logout/login"
    case GenericPositive =>
      "Operation should complete successfully with expected results"
    case LoginIncorrect =>
      "Login should fail with appropriate error message"
    case LoginLockout =>
      "Account should be temporarily locked after 5 failed attempts"
    case CartAddInvalid =>
      "System should reject the request with appropriate error message"
    case GenericNegative =>
      "Operation should fail with clear error message, not crash"
    case LoginEmpty =>
      "System should display appropriate validation messages"
    case CartOutOfStock =>
      "System should prevent adding out-of-stock items with appropriate message"
    case ProfileLongValues =>
      "System should accept and properly handle maximum length inputs"
  }

  /** The `setup` list used when `includeSetup === 'yes'`. */
  function SetupSteps(t: Template): seq<string> {
    match t
    case LoginValid =>
      ["Ensure test user account exists with known credentials",
       "Clear any existing user sessions"]
    case LoginRememberMe =>
      ["Ensure test user account exists",
       "Clear browser cookies and cache before test"]
    case CartAddValid =>
      ["Ensure test products are available in the catalog",
       "Clear the shopping cart before test"]
    case ProfileUpdate =>
      ["Ensure test user account exists",
       "Note original profile values for restoration"]
    case GenericPositive =>
      ["Prepare test environment with necessary data"]
    case LoginIncorrect =>
      ["Ensure test user account exists"]
    case LoginLockout =>
      ["Ensure test user account exists and is not locked"]
    case CartAddInvalid =>
      ["Ensure test environment is properly configured"]
    case GenericNegative =>
      ["Prepare test environment"]
    case LoginEmpty =>
      []
    case CartOutOfStock =>
      ["Ensure an out-of-stock product exists in catalog"]
    case ProfileLongValues =>
      ["Ensure test user account exists"]
  }

  /** The `teardown` list used when `includeSetup === 'yes'`. */
  function TeardownSteps(t: Template): seq<string> {
    match t
    case LoginValid =>
      ["Logout the user after test completion",
       "Clear test data if created during test"]
    case LoginRememberMe =>
      ["Logout and clear cookies after test"]
    case CartAddValid =>
      ["Remove items from cart after test completion"]
    case ProfileUpdate =>
      ["Restore original profile values after test"]
    case GenericPositive =>
      ["Clean up test data after completion"]
    case LoginIncorrect =>
      ["Clear any error states after test"]
    case LoginLockout =>
      ["Reset account lock status after test"]
    case CartAddInvalid =>
      []
    case GenericNegative =>
      ["Clean up any error states"]
    case LoginEmpty =>
      []
    case CartOutOfStock =>
      []
    case ProfileLongValues =>
      ["Restore original profile values"]
  }

  /** The record a template produces for the given setup choice. */
  function Render(t: Template, includeSetup: string): (r: TestRecord)
    ensures r.kind == KindOf(t)
    ensures includeSetup != "yes" ==> r.setup == [] && r.teardown == []
    ensures includeSetup == "yes" ==> r.setup == SetupSteps(t) && r.teardown == TeardownSteps(t)
  {
    TestRecord(Name(t), KindOf(t), Description(t), Steps(t), Expected(t),
               IfYes(includeSetup, SetupSteps(t)), IfYes(includeSetup, TeardownSteps(t)))
  }

  /** Every template has setup steps except the empty-credentials edge case. */
  lemma SetupEmptyIff(t: Template)
    ensures |SetupSteps(t)| == 0 <==> t == LoginEmpty
  {
    match t
    case LoginValid =>
    case LoginRememberMe =>
    case CartAddValid =>
    case ProfileUpdate =>
    case GenericPositive =>
    case LoginIncorrect =>
    case LoginLockout =>
    case CartAddInvalid =>
    case GenericNegative =>
    case LoginEmpty =>
    case CartOutOfStock =>
    case ProfileLongValues =>
  }

  /** Every template has teardown steps except the invalid-item,
      empty-credentials and out-of-stock ones. */
  lemma TeardownEmptyIff(t: Template)
    ensures |TeardownSteps(t)| == 0 <==> (t == CartAddInvalid || t == LoginEmpty || t == CartOutOfStock)
  {
    match t
    case LoginValid =>
    case LoginRememberMe =>
    case CartAddValid =>
    case ProfileUpdate =>
    case GenericPositive =>
    case LoginIncorrect =>
    case LoginLockout =>
    case CartAddInvalid =>
    case GenericNegative =>
    case LoginEmpty =>
    case CartOutOfStock =>
    case ProfileLongValues =>
  }

  /** `Render` over a list of templates, in order. */
  function RenderAll(ts: seq<Template>, includeSetup: string): (rs: seq<TestRecord>)
    ensures |rs| == |ts|
    ensures forall i | 0 <= i < |ts| :: rs[i] == Render(ts[i], includeSetup)
    ensures forall i | 0 <= i < |ts| :: rs[i].kind == KindOf(ts[i])
    ensures includeSetup != "yes" ==> forall r <- rs :: r.setup == [] && r.teardown == []
  {
    seq(|ts|, i requires 0 <= i < |ts| => Render(ts[i], includeSetup))
  }

  /** Templates of one type render to records of that type. */
  lemma RenderAllOfKind(ts: seq<Template>, includeSetup: string, kind: TestType)
    requires forall t <- ts :: KindOf(t) == kind
    ensures forall r <- RenderAll(ts, includeSetup) :: r.kind == kind
  {
    var rs := RenderAll(ts, includeSetup);
    forall i | 0 <= i < |rs| ensures rs[i].kind == kind {
      assert ts[i] in ts;
    }
  }
}
