/**
 * The FAQ chatbot (`Chat.jsx`): a typed line is trimmed and looked up in the
 * preset questions, by its 1-based number or by its text ignoring case; the
 * question and its answer (or a fallback reply) are appended to the thread.
 */
module Chat {
  import opened Options
  import opened Text

  datatype Faq = Faq(question: string, answer: string)

  /** `presetFAQs`. */
  const PresetFaqs: seq<Faq> := [
    Faq("What is this website for?",
        "Government declared so many scholarships, but we are not aware of them. We are helping people get their benefit."),
    Faq("How to use this website?", "First click on your category."),
    Faq("Can we use without login?", "No, you cannot. We need to know who is using our website."),
    Faq("Is this 100% accurate?", "Yes, until government stops or changes their criteria."),
    Faq("All information is secure to enter?", "Yes, your information security is our first priority.")
  ]

  /** The reply when nothing matches. */
  const Fallback := "Sorry, I don't understand yet."

  datatype Kind = Question | Answer

  datatype Message = Message(kind: Kind, text: string)

  /** The thread shown and the text in the input box. */
  datatype State = State(messages: seq<Message>, input: string)

  /** The value of a decimal digit. */
  function DigitValue(c: char): int {
    c as int - '0' as int
  }

  function DigitChar(d: nat): (c: char)
    requires d < 10
    ensures IsDigit(c) && DigitValue(c) == d
  {
    ('0' as int + d) as char
  }

  /** The number a string of decimal digits denotes. */
  function ValueOf(s: string): nat
    requires AllDigits(s)
  {
    if s == [] then 0 else ValueOf(s[..|s| - 1]) * 10 + DigitValue(s[|s| - 1])
  }

  /** `String(n)` for a natural number: its decimal digits. */
  function Decimal(n: nat): (r: string)
    ensures |r| >= 1 && AllDigits(r)
    ensures n < 10 <==> |r| == 1
  {
    if n < 10 then [DigitChar(n)] else Decimal(n / 10) + [DigitChar(n % 10)]
  }

  /** `String(n)` is the decimal numeral of `n`, most significant digit
      first and without a leading zero. */
  lemma {:induction false} DecimalDenotes(n: nat)
    ensures ValueOf(Decimal(n)) == n
    ensures n > 0 ==> Decimal(n)[0] != '0'
  {
    if n >= 10 {
      DecimalDenotes(n / 10);
      var init := Decimal(n / 10);
      var r := Decimal(n);
      assert r == init + [DigitChar(n % 10)];
      assert r[..|r| - 1] == init && r[0] == init[0];
    }
  }

  /** The test of `findIndex`: the text is the entry's 1-based number or,
      ignoring case, its question. */
  predicate Matches(faqs: seq<Faq>, i: nat, text: string)
    requires i < |faqs|
  {
    Decimal(i + 1) == text || Lower(faqs[i].question) == Lower(text)
  }

  /** `findIndex` from position `from` on. */
  function FindFrom(faqs: seq<Faq>, text: string, from: nat): (r: Option<nat>)
    requires from <= |faqs|
    ensures r.Some? ==> from <= r.value < |faqs| && Matches(faqs, r.value, text)
    ensures r.Some? ==> forall j :: from <= j < r.value ==> !Matches(faqs, j, text)
    ensures r.None? <==> forall j :: from <= j < |faqs| ==> !Matches(faqs, j, text)
    decreases |faqs| - from
  {
    if from == |faqs| then None
    else if Matches(faqs, from, text) then Some(from)
    else FindFrom(faqs, text, from + 1)
  }

  /** The first entry the text selects, if any. */
  function FindFaq(faqs: seq<Faq>, text: string): (r: Option<nat>)
    ensures r.Some? ==> r.value < |faqs| && Matches(faqs, r.value, text)
    ensures r.Some? ==> forall j :: 0 <= j < r.value ==> !Matches(faqs, j, text)
    ensures r.None? <==> forall j :: 0 <= j < |faqs| ==> !Matches(faqs, j, text)
  {
    FindFrom(faqs, text, 0)
  }

  /** `handleFAQClick`: the question and then its answer are appended (the
      answer after a delay, which is not modelled) and the input box is
      cleared. */
  function ClickFaq(faqs: seq<Faq>, s: State, index: nat): (r: State)
    requires index < |faqs|
    ensures |r.messages| == |s.messages| + 2
    ensures r.messages[..|s.messages|] == s.messages
    ensures r.messages[|s.messages|..] ==
              [Message(Question, faqs[index].question), Message(Answer, faqs[index].answer)]
    ensures r.input == ""
  {
    State(s.messages + [Message(Question, faqs[index].question)]
                     + [Message(Answer, faqs[index].answer)], "")
  }

  /** `handleSend` over the list of questions `faqs` (`PresetFaqs` in the
      page). */
  function Send(faqs: seq<Faq>, s: State): (r: State)
    ensures Trim(s.input) == "" ==> r == s
    ensures Trim(s.input) != "" ==>
              |r.messages| == |s.messages| + 2 && r.messages[..|s.messages|] == s.messages
    ensures Trim(s.input) != "" && FindFaq(faqs, Trim(s.input)).Some? ==>
              var k := FindFaq(faqs, Trim(s.input)).value;
              && r.messages[|s.messages|] == Message(Question, faqs[k].question)
              && r.messages[|s.messages| + 1] == Message(Answer, faqs[k].answer)
              && r.input == ""
    ensures Trim(s.input) != "" && FindFaq(faqs, Trim(s.input)).None? ==>
              && r.messages[|s.messages|] == Message(Question, Trim(s.input))
              && r.messages[|s.messages| + 1] == Message(Answer, Fallback)
              && r.input == s.input
  {
    var trimmed := Trim(s.input);
    if trimmed == "" then s
    else
      match FindFaq(faqs, trimmed)
      case Some(k) => ClickFaq(faqs, s, k)
      case None =>
        State(s.messages + [Message(Question, trimmed)] + [Message(Answer, Fallback)], s.input)
  }

  /** An entry that matches, with none before it, is the one found. */
  lemma FirstMatchFound(faqs: seq<Faq>, text: string, i: nat)
    requires i < |faqs| && Matches(faqs, i, text)
    requires forall j :: 0 <= j < i ==> !Matches(faqs, j, text)
    ensures FindFaq(faqs, text) == Some(i)
  {
  }

  /** The preset questions differ even after lower-casing, and each is longer
      than one character. */
  lemma PresetQuestionsDistinct(i: nat, j: nat)
    requires i < |PresetFaqs| && j < |PresetFaqs|
    ensures |PresetFaqs[i].question| > 1
    ensures i != j ==> Lower(PresetFaqs[i].question) != Lower(PresetFaqs[j].question)
  {
    var qi := PresetFaqs[i].question;
    var qj := PresetFaqs[j].question;
    assert Lower(qi)[0] == LowerChar(qi[0]) && Lower(qj)[0] == LowerChar(qj[0]);
  }

  /** Typing the number k, 1 <= k <= 5, selects the k-th preset question. */
  lemma NumberSelectsFaq(k: nat)
    requires 1 <= k <= |PresetFaqs|
    ensures FindFaq(PresetFaqs, Decimal(k)) == Some(k - 1)
  {
    forall j | 0 <= j < k - 1
      ensures !Matches(PresetFaqs, j, Decimal(k))
    {
      PresetQuestionsDistinct(j, j);
      assert |Lower(PresetFaqs[j].question)| != |Lower(Decimal(k))|;
    }
    FirstMatchFound(PresetFaqs, Decimal(k), k - 1);
  }

  /** Typing a preset question, in any mix of upper and lower case, selects
      that question. */
  lemma QuestionSelectsFaq(text: string, i: nat)
    requires i < |PresetFaqs| && Lower(text) == Lower(PresetFaqs[i].question)
    ensures FindFaq(PresetFaqs, text) == Some(i)
  {
    forall j | 0 <= j < i
      ensures !Matches(PresetFaqs, j, text)
    {
      PresetQuestionsDistinct(i, j);
      assert |Decimal(j + 1)| == 1;
    }
    FirstMatchFound(PresetFaqs, text, i);
  }
}
