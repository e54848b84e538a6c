/** The quiz page (`handleQuizPage`): two fixed questions, one answer per question
    with visual feedback, and a "next" button that cycles through the questions. */
module Quiz {

  /** One question: its text, its four options in display order, and the index of the
      right option. */
  datatype Question = Question(prompt: string, options: seq<string>, correct: nat)

  /** The fixed question set. */
  const QuizData: seq<Question> := [
    Question(
      "O que é uma variável em programação?",
      ["Um valor fixo que nunca muda",
       "Um espaço na memória para armazenar valores",
       "Um tipo de dado específico",
       "Um operador lógico"],
      1),
    Question(
      "O que significa HTML?",
      ["Hyper Text Markup Language",
       "Home Tool Markup Language",
       "Hyperlinks Text Made Logic",
       "High Transfer Machine Language"],
      0)
  ]

  /** Every question has four options and its right option is one of them. */
  predicate WellFormed(q: Question) {
    |q.options| == 4 && q.correct < |q.options|
  }

  lemma QuizDataWellFormed()
    ensures |QuizData| == 2
    ensures forall k :: 0 <= k < |QuizData| ==> WellFormed(QuizData[k])
  {
  }

  /** The feedback classes a button can receive besides `btn opcao`. */
  datatype Mark = Correta | Errada

  /** One rendered option button: its `data-index`, its caption and its feedback classes. */
  datatype OptionButton = OptionButton(dataIndex: nat, caption: string, marks: set<Mark>)

  /** The contents of the quiz container: the question heading and the option buttons. */
  datatype QuestionView = QuestionView(heading: string, buttons: seq<OptionButton>)

  /** `opcoes.map((op, i) => button)`: one unmarked button per option, in order, whose
      `data-index` is its position (counted from `start`). */
  function RenderOptions(options: seq<string>, start: nat): (buttons: seq<OptionButton>)
    ensures |buttons| == |options|
    ensures forall k :: 0 <= k < |options| ==>
      buttons[k] == OptionButton(start + k, options[k], {})
  {
    if options == [] then []
    else [OptionButton(start, options[0], {})] + RenderOptions(options[1..], start + 1)
  }

  /** `carregarPergunta`'s markup: the prompt as heading and a fresh set of buttons. */
  function RenderQuestion(q: Question): (view: QuestionView)
    ensures view.heading == q.prompt
    ensures |view.buttons| == |q.options|
    ensures forall k :: 0 <= k < |q.options| ==>
      && view.buttons[k].dataIndex == k
      && view.buttons[k].caption == q.options[k]
      && view.buttons[k].marks == {}
  {
    QuestionView(q.prompt, RenderOptions(q.options, 0))
  }

  /** Adds one feedback class to one button (`classList.add`). */
  function AddMark(buttons: seq<OptionButton>, k: nat, m: Mark): (r: seq<OptionButton>)
    requires k < |buttons|
    ensures |r| == |buttons|
    ensures r[k] == buttons[k].(marks := buttons[k].marks + {m})
    ensures forall j :: 0 <= j < |buttons| && j != k ==> r[j] == buttons[j]
  {
    buttons[k := buttons[k].(marks := buttons[k].marks + {m})]
  }

  /** `responder`'s feedback: the chosen button is marked `correta` when it is the right
      one, otherwise it is marked `errada` and the right button is marked `correta`.
      Labels and indices are untouched; `correta` is added exactly at the right option
      and `errada` exactly at a wrong choice. */
  function Reveal(buttons: seq<OptionButton>, correct: nat, chosen: nat): (r: seq<OptionButton>)
    requires correct < |buttons| && chosen < |buttons|
    ensures |r| == |buttons|
    ensures forall k :: 0 <= k < |r| ==>
      && r[k].dataIndex == buttons[k].dataIndex
      && r[k].caption == buttons[k].caption
      && (Correta in r[k].marks <==> Correta in buttons[k].marks || k == correct)
      && (Errada in r[k].marks <==> Errada in buttons[k].marks || (k == chosen && chosen != correct))
      && r[k].marks <= buttons[k].marks + {Correta, Errada}
  {
    if chosen == correct then AddMark(buttons, chosen, Correta)
    else AddMark(AddMark(buttons, chosen, Errada), correct, Correta)
  }

  /** On freshly rendered buttons, a right answer leaves exactly one button `correta`
      (the chosen one) and none `errada`; a wrong answer leaves exactly the chosen button
      `errada` and exactly the right button `correta`. */
  lemma RevealOnFreshButtons(q: Question, chosen: nat)
    requires WellFormed(q) && chosen < |q.options|
    ensures var r := Reveal(RenderQuestion(q).buttons, q.correct, chosen);
      && (forall k :: 0 <= k < |r| ==> (Correta in r[k].marks <==> k == q.correct))
      && (chosen == q.correct ==> forall k :: 0 <= k < |r| ==> Errada !in r[k].marks)
      && (chosen != q.correct ==> forall k :: 0 <= k < |r| ==> (Errada in r[k].marks <==> k == chosen))
  {
  }

  /** `classList.add` is idempotent: adding the same feedback classes a second time
      leaves the buttons as they were. */
  lemma RevealIdempotent(buttons: seq<OptionButton>, correct: nat, chosen: nat)
    requires correct < |buttons| && chosen < |buttons|
    ensures Reveal(Reveal(buttons, correct, chosen), correct, chosen) == Reveal(buttons, correct, chosen)
  {
  }

  /** The next-button step: `(quizIndex + 1) % quizData.length`. */
  function NextIndex(i: nat): (j: nat)
    ensures j < |QuizData|
    ensures i < |QuizData| ==> j == if i + 1 < |QuizData| then i + 1 else 0
  {
    (i + 1) % |QuizData|
  }

  /** The index after `n` clicks on "next" since the page loaded. */
  function IndexAfter(n: nat): nat {
    if n == 0 then 0 else NextIndex(IndexAfter(n - 1))
  }

  /** After `n` clicks on "next" from the first question, the index is `n mod 2`. */
  lemma {:induction false} IndexAfterClicks(n: nat)
    ensures IndexAfter(n) == n % |QuizData|
  {
    if n > 0 {
      IndexAfterClicks(n - 1);
    }
  }

  /** A click inside the quiz container lands on an option button (by position) or
      elsewhere. */
  datatype ContainerTarget = OptionAt(position: nat) | Elsewhere

  /** The quiz controller: the question index, the "answered" flag and the container's
      rendered contents. */
  class QuizController {
    var quizIndex: nat
    var respostaSelecionada: bool
    var view: QuestionView
    /** Clicks on "next" since the page loaded. */
    ghost var nextClicks: nat
    /** The option recorded for the current question, once answered. */
    ghost var chosen: nat

    /** The index stays in range and follows the clicks on "next"; the view is the
        current question, unmarked until answered and revealed for the recorded choice
        afterwards. */
    ghost predicate Valid()
      reads this
    {
      && quizIndex < |QuizData|
      && quizIndex == IndexAfter(nextClicks)
      && WellFormed(QuizData[quizIndex])
      && chosen < |QuizData[quizIndex].options|
      && view ==
        if respostaSelecionada then
          RenderQuestion(QuizData[quizIndex]).(buttons :=
            Reveal(RenderQuestion(QuizData[quizIndex]).buttons, QuizData[quizIndex].correct, chosen))
        else RenderQuestion(QuizData[quizIndex])
    }

    /** Page load: the first question, unanswered. */
    constructor ()
      ensures Valid()
      ensures quizIndex == 0 && !respostaSelecionada && nextClicks == 0
      ensures view == RenderQuestion(QuizData[0])
    {
      quizIndex := 0;
      nextClicks := 0;
      chosen := 0;
      new;
      LoadQuestion();
    }

    /** `carregarPergunta`: clear the flag and render the current question afresh. */
    method LoadQuestion()
      requires quizIndex < |QuizData|
      modifies this
      ensures quizIndex == old(quizIndex) && nextClicks == old(nextClicks) && chosen == old(chosen)
      ensures !respostaSelecionada
      ensures view == RenderQuestion(QuizData[quizIndex])
    {
      respostaSelecionada := false;
      var q := QuizData[quizIndex];
      view := RenderQuestion(q);
    }

    /** `responder(i)`: the first answer to a question reveals the feedback; any later
        answer to the same question changes nothing. */
    method Respond(i: nat)
      requires Valid()
      requires i < |view.buttons|
      modifies this
      ensures Valid()
      ensures respostaSelecionada
      ensures quizIndex == old(quizIndex) && nextClicks == old(nextClicks)
      ensures old(respostaSelecionada) ==> view == old(view) && chosen == old(chosen)
      ensures !old(respostaSelecionada) ==>
        && chosen == i
        && view == old(view).(buttons := Reveal(old(view).buttons, QuizData[quizIndex].correct, i))
    {
      if respostaSelecionada {
        return;
      }
      respostaSelecionada := true;
      chosen := i;
      var q := QuizData[quizIndex];
      view := view.(buttons := Reveal(view.buttons, q.correct, i));
    }

    /** A click in the container: an option button answers with its `data-index`;
        anything else is ignored. */
    method ContainerClick(target: ContainerTarget)
      requires Valid()
      requires target.OptionAt? ==> target.position < |view.buttons|
      modifies this
      ensures Valid()
      ensures quizIndex == old(quizIndex) && nextClicks == old(nextClicks)
      ensures target.Elsewhere? || old(respostaSelecionada) ==>
        view == old(view) && respostaSelecionada == old(respostaSelecionada) && chosen == old(chosen)
      ensures target.OptionAt? && !old(respostaSelecionada) ==>
        && respostaSelecionada
        && view.buttons == Reveal(old(view).buttons, QuizData[quizIndex].correct,
                                  old(view).buttons[target.position].dataIndex)
    {
      if target.OptionAt? {
        var i := view.buttons[target.position].dataIndex;
        Respond(i);
      }
    }

    /** The next button: advance the index modulo the number of questions and load that
        question unanswered and unmarked. */
    method Next()
      requires Valid()
      modifies this
      ensures Valid()
      ensures quizIndex == NextIndex(old(quizIndex))
      ensures nextClicks == old(nextClicks) + 1
      ensures quizIndex == nextClicks % |QuizData|
      ensures !respostaSelecionada
      ensures view == RenderQuestion(QuizData[quizIndex])
    {
      quizIndex := (quizIndex + 1) % |QuizData|;
      nextClicks := nextClicks + 1;
      chosen := 0;
      LoadQuestion();
      IndexAfterClicks(nextClicks);
    }
  }
}
