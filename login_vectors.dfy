/** Six of the eight login-form examples of the scorer's tests, as form
    records: the complete login form and the same form with a forgot-password
    link or a provider sign-in button, all detected; the contact form, the
    search form with only a user name field and the page without a form, not
    detected. The e-mail sign-in form and the remember-me form are not
    written out here. */
module LoginVectors {

  import opened Wrappers
  import opened Text
  import opened Constants
  import opened Page
  import opened Login

  /** `<form action="/login">` with a text input named username, a password
      input and a submit button reading "Login". */
  const CompleteLoginForm: Form := Form(Some("/login"),
    [Input(Some("text"), Some("username"), None, None, ""), Input(Some("password"), Some("password"), None, None, "")],
    [Button(Some("submit"), "Login", None, None)], [], [])

  /** `<form action="/contact">` with a text input, an e-mail input and a
      submit button reading "Send". */
  const ContactForm: Form := Form(Some("/contact"),
    [Input(Some("text"), Some("name"), None, None, ""), Input(Some("email"), Some("email"), None, None, "")],
    [Button(Some("submit"), "Send", None, None)], [], [])

  function SingleFormPage(form: Form): Document {
    Document([], [], [], [form], [])
  }

  /** The complete login form has a login action, a user field, a password
      field and one login button, and no other signal. */
  lemma CompleteLoginFormSignals()
    ensures HasLoginAction(CompleteLoginForm)
    ensures HasUserInput(CompleteLoginForm) && HasPasswordInput(CompleteLoginForm)
  {
    var f := CompleteLoginForm;
    LowerOfLowerCase("/login");
    assert StartsWith("/login"[1..], "login");
    assert IsUserInput(f.inputs[0]);
    assert IsPasswordInput(f.inputs[1]);
  }

  lemma CompleteLoginFormSubmit()
    ensures CountLoginButtons(CompleteLoginForm.buttons) == 1
    ensures CountLoginInputs(CompleteLoginForm.inputs) == 0
  {
    var f := CompleteLoginForm;
    assert Lower("Login") == "login";
    assert IsLoginSubmitButton(f.buttons[0]);
    assert f.buttons[..0] == [];
    assert f.inputs[..1][..0] == [];
  }

  lemma CompleteLoginFormNoExtras()
    ensures !HasRememberMe(CompleteLoginForm) && !HasForgotPassword(CompleteLoginForm)
    ensures !HasOAuth(CompleteLoginForm)
  {
  }

  lemma CompleteLoginFormScore()
    ensures FormScore(CompleteLoginForm) == 12
  {
    CompleteLoginFormSignals();
    CompleteLoginFormSubmit();
    CompleteLoginFormNoExtras();
  }

  /** The complete login form is detected. */
  lemma CompleteLoginFormDetected()
    ensures PageScore(SingleFormPage(CompleteLoginForm)) >= DefaultLoginFormThreshold
  {
    CompleteLoginFormScore();
    assert [CompleteLoginForm][..0] == [];
  }

  lemma ContactFormAction()
    ensures !HasLoginAction(ContactForm)
  {
    var a := Lower("/contact");
    LowerOfLowerCase("/contact");
    assert a == "/contact";
    assert 'l' !in a && 's' !in a && 'u' !in a;
    MissingCharNotContained(a, "login", 'l');
    MissingCharNotContained(a, "signin", 's');
    MissingCharNotContained(a, "auth", 'u');
  }

  lemma ContactFormSubmit()
    ensures CountLoginButtons(ContactForm.buttons) == 0 && CountLoginInputs(ContactForm.inputs) == 0
  {
    var f := ContactForm;
    assert SubmitText("Send", None) == "send" by { assert Lower("Send") == "send"; }
    MissingCharNotContained("send", "login", 'l');
    MissingCharNotContained("send", "sign in", 'i');
    MissingCharNotContained("send", "log in", 'l');
    assert f.buttons[..0] == [];
    assert f.inputs[..1][..0] == [];
  }

  lemma SendIsNoOAuth()
    ensures !IsOAuthControl("Send", None)
  {
    assert Lower("Send") == "send";
    assert Lower(AttrOrEmpty(None)) == "";
    forall k | 0 <= k < |OAuthProviders|
      ensures !Contains("send", "sign in with " + OAuthProviders[k])
      ensures !Contains("send", "login with " + OAuthProviders[k])
      ensures !Contains("", OAuthProviders[k])
    {
      MissingCharNotContained("send", "sign in with " + OAuthProviders[k], 'i');
      MissingCharNotContained("send", "login with " + OAuthProviders[k], 'l');
      assert OAuthProviders[k][0] in OAuthProviders[k];
      MissingCharNotContained("", OAuthProviders[k], OAuthProviders[k][0]);
    }
  }

  /** The contact form has a user field and none of the other form signals. */
  lemma ContactFormSignals()
    ensures !HasPasswordInput(ContactForm) && HasUserInput(ContactForm)
    ensures !HasRememberMe(ContactForm) && !HasForgotPassword(ContactForm)
  {
    assert IsUserInput(ContactForm.inputs[0]);
  }

  lemma ContactFormNoOAuth()
    ensures !HasOAuth(ContactForm)
  {
    SendIsNoOAuth();
  }

  lemma ContactFormScore()
    ensures FormScore(ContactForm) == 3
  {
    ContactFormAction();
    ContactFormSubmit();
    ContactFormSignals();
    ContactFormNoOAuth();
  }

  /** The contact form is not taken for a login form. */
  lemma ContactFormNotDetected()
    ensures PageScore(SingleFormPage(ContactForm)) < DefaultLoginFormThreshold
  {
    ContactFormScore();
    assert [ContactForm][..0] == [];
  }

  /** `<form action="/search">` with a text input named username and a
      submit button reading "Search". */
  const SearchForm: Form := Form(Some("/search"),
    [Input(Some("text"), Some("username"), None, None, "")],
    [Button(Some("submit"), "Search", None, None)], [], [])

  lemma SearchFormAction()
    ensures !HasLoginAction(SearchForm)
  {
    var a := Lower("/search");
    LowerOfLowerCase("/search");
    assert a == "/search";
    assert 'l' !in a && 'i' !in a && 'u' !in a;
    MissingCharNotContained(a, "login", 'l');
    MissingCharNotContained(a, "signin", 'i');
    MissingCharNotContained(a, "auth", 'u');
  }

  lemma SearchFormSubmit()
    ensures CountLoginButtons(SearchForm.buttons) == 0 && CountLoginInputs(SearchForm.inputs) == 0
  {
    var f := SearchForm;
    assert SubmitText("Search", None) == "search" by { assert Lower("Search") == "search"; }
    MissingCharNotContained("search", "login", 'l');
    MissingCharNotContained("search", "sign in", 'i');
    MissingCharNotContained("search", "log in", 'l');
    assert f.buttons[..0] == [];
    assert f.inputs[..0] == [];
  }

  lemma SearchIsNoOAuth()
    ensures !IsOAuthControl("Search", None)
  {
    assert Lower("Search") == "search";
    assert Lower(AttrOrEmpty(None)) == "";
    forall k | 0 <= k < |OAuthProviders|
      ensures !Contains("search", "sign in with " + OAuthProviders[k])
      ensures !Contains("search", "login with " + OAuthProviders[k])
      ensures !Contains("", OAuthProviders[k])
    {
      MissingCharNotContained("search", "sign in with " + OAuthProviders[k], 'i');
      MissingCharNotContained("search", "login with " + OAuthProviders[k], 'l');
      assert OAuthProviders[k][0] in OAuthProviders[k];
      MissingCharNotContained("", OAuthProviders[k], OAuthProviders[k][0]);
    }
  }

  lemma SearchFormScore()
    ensures FormScore(SearchForm) == 3
  {
    SearchFormAction();
    SearchFormSubmit();
    assert IsUserInput(SearchForm.inputs[0]);
    SearchIsNoOAuth();
  }

  /** A user name field without a password field is not a login form. */
  lemma SearchFormNotDetected()
    ensures PageScore(SingleFormPage(SearchForm)) < DefaultLoginFormThreshold
  {
    SearchFormScore();
    assert [SearchForm][..0] == [];
  }

  /** A page without forms and without authentication tags scores 0. */
  lemma NoFormNotDetected()
    ensures PageScore(Document([], [], [], [], [])) < DefaultLoginFormThreshold
  {
  }

  /** The complete login form with `<a href="/forgot">Forgot password?</a>`
      added. */
  const ForgotPasswordForm: Form := Form(Some("/login"), CompleteLoginForm.inputs,
    CompleteLoginForm.buttons, [Anchor("Forgot password?", None)], [])

  lemma ForgotLinkSignal(a: Anchor)
    requires a == Anchor("Forgot password?", None)
    ensures IsForgotPasswordLink(a)
  {
    var t := Lower(a.text);
    assert t == "forgot" + " password?";
    assert t == "forgot " + "password" + "?";
    ContainsPiece([], "forgot", " password?");
    assert [] + "forgot" + " password?" == t;
    ContainsPiece("forgot ", "password", "?");
  }

  /** The link is a forgot-password signal, and the form is detected. */
  lemma ForgotPasswordFormDetected()
    ensures HasForgotPassword(ForgotPasswordForm)
    ensures PageScore(SingleFormPage(ForgotPasswordForm)) >= DefaultLoginFormThreshold
  {
    ForgotLinkSignal(ForgotPasswordForm.anchors[0]);
    CompleteLoginFormSignals();
    CompleteLoginFormSubmit();
    ClassicLoginFormDetected(SingleFormPage(ForgotPasswordForm), 0);
  }

  /** The complete login form with
      `<button class="google-auth">Sign in with Google</button>` added. */
  const OAuthForm: Form := Form(Some("/login"), CompleteLoginForm.inputs,
    CompleteLoginForm.buttons + [Button(None, "Sign in with Google", None, Some("google-auth"))], [], [])

  lemma ProviderButtonSignal(b: Button)
    requires b == Button(None, "Sign in with Google", None, Some("google-auth"))
    ensures IsOAuthControl(b.text, b.classes)
  {
    var p := "sign in with " + OAuthProviders[0];
    SignInWithGoogle(b.text);
    ContainsPiece([], p, []);
    assert [] + p + [] == p;
    assert Contains(Lower(b.text), p);
  }

  lemma SignInWithGoogle(s: string)
    requires s == "Sign in with Google"
    ensures Lower(s) == "sign in with " + OAuthProviders[0]
  {
  }

  /** The provider button is an OAuth signal, and the form is detected. */
  lemma OAuthFormDetected()
    ensures HasOAuth(OAuthForm)
    ensures PageScore(SingleFormPage(OAuthForm)) >= DefaultLoginFormThreshold
  {
    ProviderButtonSignal(OAuthForm.buttons[1]);
    CompleteLoginFormSignals();
    CompleteLoginFormSubmit();
    assert OAuthForm.buttons[..1] == CompleteLoginForm.buttons;
    ClassicLoginFormDetected(SingleFormPage(OAuthForm), 0);
  }
}
