/**
 * The validation branch of account creation (`Createacc.jsx`, `subtn`):
 * name, then email, then a password of exactly eight characters; on success
 * the greeting shown as the user name. Sending the account to the server is
 * not modelled.
 */
module Account {

  /** What pressing the submit button produces: the hint shown under the
      form, or the greeting that becomes the user name. */
  datatype Outcome =
    | Hint(text: string)
    | Created(username: string)

  const NameHint := "enter the name"
  const EmailHint := "enter the email"
  const PasswordHint := "enter the 8 digit password"
  const Greeting := "welocome-"

  /** The only accepted password length. */
  const PasswordLength := 8

  /** `subtn`: an empty field is detected with `!field`, so white space counts
      as filled; only the password's length is checked. */
  function Submit(name: string, email: string, password: string): (r: Outcome)
    ensures name == "" ==> r == Hint(NameHint)
    ensures name != "" && email == "" ==> r == Hint(EmailHint)
    ensures name != "" && email != "" && |password| != PasswordLength ==> r == Hint(PasswordHint)
    ensures r.Created? <==> name != "" && email != "" && |password| == PasswordLength
    ensures r.Hint? ==> r.text in {NameHint, EmailHint, PasswordHint}
    ensures r.Created? ==>
              |r.username| == |Greeting| + |name|
              && r.username[..|Greeting|] == Greeting && r.username[|Greeting|..] == name
  {
    if name == "" then Hint(NameHint)
    else if email == "" then Hint(EmailHint)
    else if password == "" || |password| < 8 || |password| > 8 then Hint(PasswordHint)
    else Created(Greeting + name)
  }

  /** Only the password's length matters, never its characters. */
  lemma PasswordCharactersIrrelevant(name: string, email: string, p: string, q: string)
    requires |p| == |q|
    ensures Submit(name, email, p) == Submit(name, email, q)
  {
  }

  /** Two successful submissions greet different names differently. */
  lemma GreetingInjective(name1: string, name2: string, email: string, password: string)
    requires Submit(name1, email, password).Created?
    requires Submit(name1, email, password) == Submit(name2, email, password)
    ensures name1 == name2
  {
    var u := Submit(name1, email, password).username;
    assert name1 == u[|Greeting|..];
  }
}
