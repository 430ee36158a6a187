/** `detectLoginForm`: each form gets an additive score from the login
    signals it shows, the page keeps the best form score, adds one for each
    authentication meta/link tag, and reports a login form when the total
    reaches the threshold. Text comparisons are on the lower-cased text. */
module Login {

  import opened Wrappers
  import opened Text
  import opened Constants
  import opened Page

  // ---------------------------------------------------------------------
  // The signals

  /** The form's `action` names a login, sign-in or auth endpoint. */
  predicate HasLoginAction(form: Form) {
    match form.action
    case None => false
    case Some(action) =>
      var a := Lower(action);
      Contains(a, "login") || Contains(a, "signin") || Contains(a, "auth")
  }

  predicate IsPasswordInput(input: Input) {
    input.inputType == Some("password")
  }

  /** `input[type='text'], input[type='email'], input[name*='username' i],
      input[name*='email' i], input[id*='username' i], input[id*='email' i]`. */
  predicate IsUserInput(input: Input) {
    input.inputType == Some("text") || input.inputType == Some("email")
    || (input.name.Some? && (Contains(Lower(input.name.value), "username") || Contains(Lower(input.name.value), "email")))
    || (input.id.Some? && (Contains(Lower(input.id.value), "username") || Contains(Lower(input.id.value), "email")))
  }

  predicate IsLoginText(text: string) {
    Contains(text, "login") || Contains(text, "sign in") || Contains(text, "log in")
  }

  /** The text a submit control is judged by: its lower-cased text, then a
      space and its lower-cased `value` when it has one. */
  function SubmitText(text: string, value: Option<string>): (t: string)
    ensures StartsWith(t, Lower(text))
  {
    match value
    case None => Lower(text)
    case Some(v) => Lower(text) + " " + Lower(v)
  }

  predicate IsLoginSubmitButton(button: Button) {
    button.buttonType == Some("submit") && IsLoginText(SubmitText(button.text, button.value))
  }

  /** An input has no text content, so only its `value` is looked at. */
  predicate IsLoginSubmitInput(input: Input) {
    input.inputType == Some("submit") && IsLoginText(SubmitText("", input.value))
  }

  function CountLoginButtons(buttons: seq<Button>): (n: nat)
    ensures n <= |buttons|
  {
    if buttons == [] then 0
    else CountLoginButtons(buttons[..|buttons| - 1]) + (if IsLoginSubmitButton(buttons[|buttons| - 1]) then 1 else 0)
  }

  function CountLoginInputs(inputs: seq<Input>): (n: nat)
    ensures n <= |inputs|
  {
    if inputs == [] then 0
    else CountLoginInputs(inputs[..|inputs| - 1]) + (if IsLoginSubmitInput(inputs[|inputs| - 1]) then 1 else 0)
  }

  /** The texts of the labels `label[for=id]`, each preceded by a space. */
  function LabelsFor(labels: seq<Label>, id: string): string
  {
    if labels == [] then ""
    else LabelsFor(labels[..|labels| - 1], id)
         + (if labels[|labels| - 1].forId == Some(id) then " " + labels[|labels| - 1].text else "")
  }

  /** The label text of a checkbox: its parent's text, followed by the
      labels that point at its `id`. */
  function CheckboxLabel(input: Input, labels: seq<Label>): string {
    match input.id
    case None => input.parentText
    case Some(id) => input.parentText + LabelsFor(labels, id)
  }

  predicate IsRememberMe(input: Input, labels: seq<Label>) {
    input.inputType == Some("checkbox")
    && var l := Lower(CheckboxLabel(input, labels));
       Contains(l, "remember me") || Contains(l, "keep me signed in")
  }

  predicate IsForgotPasswordLink(anchor: Anchor) {
    var t := Lower(anchor.text);
    Contains(t, "forgot") && Contains(t, "password")
  }

  const OAuthProviders: seq<string> := ["google", "facebook", "github", "twitter", "microsoft"]

  /** A button or link that offers sign-in through a provider, by its text or
      by its classes. */
  predicate IsOAuthControl(text: string, classes: Option<string>) {
    var t := Lower(text);
    var c := Lower(AttrOrEmpty(classes));
    exists k :: 0 <= k < |OAuthProviders| &&
      (Contains(t, "sign in with " + OAuthProviders[k]) || Contains(t, "login with " + OAuthProviders[k])
       || (Contains(c, OAuthProviders[k]) && (Contains(c, "auth") || Contains(c, "login") || Contains(c, "oauth"))))
  }

  predicate HasPasswordInput(form: Form) {
    exists k :: 0 <= k < |form.inputs| && IsPasswordInput(form.inputs[k])
  }

  predicate HasUserInput(form: Form) {
    exists k :: 0 <= k < |form.inputs| && IsUserInput(form.inputs[k])
  }

  predicate HasRememberMe(form: Form) {
    exists k :: 0 <= k < |form.inputs| && IsRememberMe(form.inputs[k], form.labels)
  }

  predicate HasForgotPassword(form: Form) {
    exists k :: 0 <= k < |form.anchors| && IsForgotPasswordLink(form.anchors[k])
  }

  predicate HasOAuth(form: Form) {
    (exists k :: 0 <= k < |form.buttons| && IsOAuthControl(form.buttons[k].text, form.buttons[k].classes))
    || (exists k :: 0 <= k < |form.anchors| && IsOAuthControl(form.anchors[k].text, form.anchors[k].classes))
  }

  function Bonus(signal: bool, points: nat): nat {
    if signal then points else 0
  }

  /** The score of one form: 3 for a login action, 4 for a password input, 3
      for a user-name or e-mail input, 2 for each login submit control, and 2
      each for a remember-me checkbox, a forgot-password link and a
      provider sign-in control. */
  function FormScore(form: Form): nat {
    Bonus(HasLoginAction(form), 3) + Bonus(HasPasswordInput(form), 4) + Bonus(HasUserInput(form), 3)
    + 2 * (CountLoginButtons(form.buttons) + CountLoginInputs(form.inputs))
    + Bonus(HasRememberMe(form), 2) + Bonus(HasForgotPassword(form), 2) + Bonus(HasOAuth(form), 2)
  }

  /** The best form score, 0 when there is no form. */
  function MaxFormScore(forms: seq<Form>): nat {
    if forms == [] then 0
    else
      var best := MaxFormScore(forms[..|forms| - 1]);
      var s := FormScore(forms[|forms| - 1]);
      if s > best then s else best
  }

  /** The meta/link tags the page-level selector picks
      (`meta[name*='sign' i], meta[name*='auth' i], link[rel*='authorization' i]`)
      whose `content` mentions "auth". */
  predicate IsAuthTag(tag: Tag) {
    (match tag
     case Meta(name, _) => name.Some? && (Contains(Lower(name.value), "sign") || Contains(Lower(name.value), "auth"))
     case Link(rel, _) => rel.Some? && Contains(Lower(rel.value), "authorization"))
    && tag.content.Some? && Contains(Lower(tag.content.value), "auth")
  }

  function AuthTagCount(tags: seq<Tag>): (n: nat)
    ensures n <= |tags|
  {
    if tags == [] then 0
    else AuthTagCount(tags[..|tags| - 1]) + (if IsAuthTag(tags[|tags| - 1]) then 1 else 0)
  }

  function PageScore(doc: Document): nat {
    MaxFormScore(doc.forms) + AuthTagCount(doc.tags)
  }

  // ---------------------------------------------------------------------
  // The scorer

  /** The per-form part of `detectLoginForm`: the score accumulated over the
      form's signals, the submit controls counted one by one. */
  method ScoreForm(form: Form) returns (formScore: nat)
    ensures formScore == FormScore(form)
  {
    var action, password, user := HasLoginAction(form), HasPasswordInput(form), HasUserInput(form);
    var rememberMe, forgot, oauth := HasRememberMe(form), HasForgotPassword(form), HasOAuth(form);
    var score: int := 0;
    if action {
      score := score + 3;
    }
    if password {
      score := score + 4;
    }
    if user {
      score := score + 3;
    }
    assert score == Bonus(action, 3) + Bonus(password, 4) + Bonus(user, 3);
    var buttons := CountSubmitButtons(form.buttons);
    var inputs := CountSubmitInputs(form.inputs);
    score := score + 2 * buttons + 2 * inputs;
    if rememberMe {
      score := score + 2;
    }
    if forgot {
      score := score + 2;
    }
    if oauth {
      score := score + 2;
    }
    formScore := score;
  }

  /** The submit buttons of a form that earn the login bonus, counted one by
      one. */
  method CountSubmitButtons(buttons: seq<Button>) returns (n: nat)
    ensures n == CountLoginButtons(buttons)
  {
    n := 0;
    var i := 0;
    while i < |buttons|
      invariant 0 <= i <= |buttons|
      invariant n == CountLoginButtons(buttons[..i])
    {
      assert buttons[..i + 1][..i] == buttons[..i];
      if IsLoginSubmitButton(buttons[i]) {
        n := n + 1;
      }
      i := i + 1;
    }
    assert buttons[..i] == buttons;
  }

  /** The submit inputs of a form that earn the login bonus, counted one by
      one. */
  method CountSubmitInputs(inputs: seq<Input>) returns (n: nat)
    ensures n == CountLoginInputs(inputs)
  {
    n := 0;
    var i := 0;
    while i < |inputs|
      invariant 0 <= i <= |inputs|
      invariant n == CountLoginInputs(inputs[..i])
    {
      assert inputs[..i + 1][..i] == inputs[..i];
      if IsLoginSubmitInput(inputs[i]) {
        n := n + 1;
      }
      i := i + 1;
    }
    assert inputs[..i] == inputs;
  }

  /** `detectLoginForm`: the best form score plus one per authentication
      tag, compared with the threshold. */
  method DetectLoginForm(doc: Document) returns (hasLoginForm: bool)
    ensures hasLoginForm <==> PageScore(doc) >= DefaultLoginFormThreshold
  {
    var score := 0;
    var i := 0;
    while i < |doc.forms|
      invariant 0 <= i <= |doc.forms|
      invariant score == MaxFormScore(doc.forms[..i])
    {
      assert doc.forms[..i + 1][..i] == doc.forms[..i];
      var formScore := ScoreForm(doc.forms[i]);
      if formScore > score {
        score := formScore;
      }
      i := i + 1;
    }
    assert doc.forms[..i] == doc.forms;
    ghost var best := score;
    var j := 0;
    while j < |doc.tags|
      invariant 0 <= j <= |doc.tags|
      invariant score == best + AuthTagCount(doc.tags[..j])
    {
      assert doc.tags[..j + 1][..j] == doc.tags[..j];
      if IsAuthTag(doc.tags[j]) {
        score := score + 1;
      }
      j := j + 1;
    }
    assert doc.tags[..j] == doc.tags;
    hasLoginForm := score >= DefaultLoginFormThreshold;
  }

  // ---------------------------------------------------------------------
  // Properties

  /** The page keeps the best form: its form score is at least every form's
      and is either 0 or the score of one of the forms. */
  lemma {:induction false} MaxFormScoreIsMaximum(forms: seq<Form>)
    ensures forall k :: 0 <= k < |forms| ==> FormScore(forms[k]) <= MaxFormScore(forms)
    ensures MaxFormScore(forms) == 0 || exists k :: 0 <= k < |forms| && MaxFormScore(forms) == FormScore(forms[k])
  {
    if forms != [] {
      var init := forms[..|forms| - 1];
      MaxFormScoreIsMaximum(init);
      assert forall k :: 0 <= k < |init| ==> forms[k] == init[k];
    }
  }

  /** A form scores at most 16 plus 2 per submit control. */
  lemma FormScoreBound(form: Form)
    ensures FormScore(form) <= 16 + 2 * (|form.buttons| + |form.inputs|)
  {
  }

  /** A classic login form, with a login action, a password input, a user
      name input and a login submit control, is detected on its own. */
  lemma ClassicLoginFormDetected(doc: Document, k: nat)
    requires k < |doc.forms|
    requires var f := doc.forms[k];
      HasLoginAction(f) && HasPasswordInput(f) && HasUserInput(f) && CountLoginButtons(f.buttons) >= 1
    ensures PageScore(doc) >= DefaultLoginFormThreshold
  {
    MaxFormScoreIsMaximum(doc.forms);
  }

  /** Without a login action, a password input, a user name input and one
      login submit control score 9: one point short of the threshold. */
  lemma NoActionFallsShort(f: Form)
    requires !HasLoginAction(f) && HasPasswordInput(f) && HasUserInput(f)
    requires CountLoginButtons(f.buttons) + CountLoginInputs(f.inputs) == 1
    requires !HasRememberMe(f) && !HasForgotPassword(f) && !HasOAuth(f)
    ensures FormScore(f) == 9
    ensures PageScore(Document([], [], [], [f], [])) < DefaultLoginFormThreshold
  {
    var doc := Document([], [], [], [f], []);
    assert doc.forms[..0] == [];
    assert MaxFormScore(doc.forms) == 9;
    assert AuthTagCount(doc.tags) == 0;
  }

  // Adding elements never lowers a score.

  lemma {:induction false} CountLoginButtonsAppend(a: seq<Button>, b: seq<Button>)
    ensures CountLoginButtons(a + b) == CountLoginButtons(a) + CountLoginButtons(b)
    decreases |b|
  {
    if b == [] {
      assert a + b == a;
    } else {
      var init := b[..|b| - 1];
      assert a + b == (a + init) + [b[|b| - 1]];
      assert (a + b)[..|a + b| - 1] == a + init;
      CountLoginButtonsAppend(a, init);
    }
  }

  lemma {:induction false} CountLoginInputsAppend(a: seq<Input>, b: seq<Input>)
    ensures CountLoginInputs(a + b) == CountLoginInputs(a) + CountLoginInputs(b)
    decreases |b|
  {
    if b == [] {
      assert a + b == a;
    } else {
      var init := b[..|b| - 1];
      assert (a + b)[..|a + b| - 1] == a + init;
      CountLoginInputsAppend(a, init);
    }
  }

  lemma {:induction false} LabelsForAppend(a: seq<Label>, b: seq<Label>, id: string)
    ensures StartsWith(LabelsFor(a + b, id), LabelsFor(a, id))
    decreases |b|
  {
    if b == [] {
      assert a + b == a;
    } else {
      var init := b[..|b| - 1];
      assert (a + b)[..|a + b| - 1] == a + init;
      LabelsForAppend(a, init, id);
      var x := LabelsFor(a, id);
      var y := LabelsFor(a + init, id);
      var z := LabelsFor(a + b, id);
      assert z[..|y|] == y;
      assert z[..|x|] == y[..|x|];
    }
  }

  /** The lower-cased text of a longer label starts with that of the shorter
      one, so what it contains, it still contains. */
  lemma LowerPrefixContains(s: string, t: string, p: string)
    requires StartsWith(t, s) && Contains(Lower(s), p)
    ensures Contains(Lower(t), p)
  {
    assert Lower(t) == Lower(s) + Lower(t)[|s|..];
    ContainsInExtension(Lower(s), p, [], Lower(t)[|s|..]);
    assert [] + Lower(s) + Lower(t)[|s|..] == Lower(t);
  }

  lemma RememberMeKept(input: Input, labels: seq<Label>, more: seq<Label>)
    requires IsRememberMe(input, labels)
    ensures IsRememberMe(input, labels + more)
  {
    var s := CheckboxLabel(input, labels);
    var t := CheckboxLabel(input, labels + more);
    if input.id.Some? {
      LabelsForAppend(labels, more, input.id.value);
      var x := LabelsFor(labels, input.id.value);
      var y := LabelsFor(labels + more, input.id.value);
      assert t == input.parentText + y;
      assert t[..|s|] == s;
    }
    assert StartsWith(t, s);
    if Contains(Lower(s), "remember me") {
      LowerPrefixContains(s, t, "remember me");
    } else {
      LowerPrefixContains(s, t, "keep me signed in");
    }
  }

  /** The grown form: the same action, each list of elements extended. */
  function Grown(form: Form, inputs: seq<Input>, buttons: seq<Button>, anchors: seq<Anchor>, labels: seq<Label>): Form {
    Form(form.action, form.inputs + inputs, form.buttons + buttons, form.anchors + anchors, form.labels + labels)
  }

  lemma InputSignalsKept(form: Form, g: Form, labels: seq<Label>)
    requires |form.inputs| <= |g.inputs| && g.inputs[..|form.inputs|] == form.inputs
    requires g.labels == form.labels + labels
    ensures HasPasswordInput(form) ==> HasPasswordInput(g)
    ensures HasUserInput(form) ==> HasUserInput(g)
    ensures HasRememberMe(form) ==> HasRememberMe(g)
  {
    if HasPasswordInput(form) {
      var k :| 0 <= k < |form.inputs| && IsPasswordInput(form.inputs[k]);
      assert g.inputs[k] == form.inputs[k];
    }
    if HasUserInput(form) {
      var k :| 0 <= k < |form.inputs| && IsUserInput(form.inputs[k]);
      assert g.inputs[k] == form.inputs[k];
    }
    if HasRememberMe(form) {
      var k :| 0 <= k < |form.inputs| && IsRememberMe(form.inputs[k], form.labels);
      RememberMeKept(form.inputs[k], form.labels, labels);
      assert g.inputs[k] == form.inputs[k];
    }
  }

  lemma LinkSignalsKept(form: Form, g: Form)
    requires |form.anchors| <= |g.anchors| && g.anchors[..|form.anchors|] == form.anchors
    requires |form.buttons| <= |g.buttons| && g.buttons[..|form.buttons|] == form.buttons
    ensures HasForgotPassword(form) ==> HasForgotPassword(g)
    ensures HasOAuth(form) ==> HasOAuth(g)
  {
    if HasForgotPassword(form) {
      var k :| 0 <= k < |form.anchors| && IsForgotPasswordLink(form.anchors[k]);
      assert g.anchors[k] == form.anchors[k];
    }
    if HasOAuth(form) {
      if exists k :: 0 <= k < |form.buttons| && IsOAuthControl(form.buttons[k].text, form.buttons[k].classes) {
        var k :| 0 <= k < |form.buttons| && IsOAuthControl(form.buttons[k].text, form.buttons[k].classes);
        assert g.buttons[k] == form.buttons[k];
      } else {
        var k :| 0 <= k < |form.anchors| && IsOAuthControl(form.anchors[k].text, form.anchors[k].classes);
        assert g.anchors[k] == form.anchors[k];
      }
    }
  }

  /** Adding inputs, buttons, links or labels to a form never lowers its
      score: every signal present stays present and counts only grow. */
  lemma FormScoreMonotone(form: Form, inputs: seq<Input>, buttons: seq<Button>, anchors: seq<Anchor>, labels: seq<Label>)
    ensures FormScore(Grown(form, inputs, buttons, anchors, labels)) >= FormScore(form)
  {
    var g := Grown(form, inputs, buttons, anchors, labels);
    CountLoginButtonsAppend(form.buttons, buttons);
    CountLoginInputsAppend(form.inputs, inputs);
    assert g.inputs[..|form.inputs|] == form.inputs;
    assert g.anchors[..|form.anchors|] == form.anchors;
    assert g.buttons[..|form.buttons|] == form.buttons;
    InputSignalsKept(form, g, labels);
    LinkSignalsKept(form, g);
    assert HasLoginAction(g) == HasLoginAction(form);
  }

  /** Adding a form or a tag to a page never lowers its score. */
  lemma PageScoreMonotone(doc: Document, form: Form, tag: Tag)
    ensures PageScore(doc.(forms := doc.forms + [form])) >= PageScore(doc)
    ensures PageScore(doc.(tags := doc.tags + [tag])) >= PageScore(doc)
  {
    assert (doc.forms + [form])[..|doc.forms|] == doc.forms;
    assert (doc.tags + [tag])[..|doc.tags|] == doc.tags;
  }
}
