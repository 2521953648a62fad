/**
 * The editable list of application questions: a locked payout-address
 * question shown first, three default questions, and the save (append or
 * replace) and remove operations offered by the list's controls.
 */
module ApplicationQuestions {
  import opened Wrappers

  /** `SchemaQuestion`; `qtype` is the input type's name (`"address"`, `"email"`, ...). */
  datatype SchemaQuestion = SchemaQuestion(
    id: int,
    title: string,
    qtype: string,
    required: bool,
    hidden: bool,
    choices: Option<seq<string>>,
    encrypted: bool)

  /** The locked question: the payout wallet address, required, hidden, not encrypted. */
  function PayoutQuestion(): (q: SchemaQuestion)
    ensures q.id == 0 && q.title == "Payout Wallet Address" && q.qtype == "address"
    ensures q.required && q.hidden && !q.encrypted && q.choices.None?
  {
    SchemaQuestion(0, "Payout Wallet Address", "address", true, true, None, false)
  }

  /**
   * `initialQuestions`: three required questions with ids 1, 2, 3; the
   * e-mail address is encrypted and hidden, the other two are neither.
   */
  function InitialQuestions(): (qs: seq<SchemaQuestion>)
    ensures |qs| == 3
    ensures forall i :: 0 <= i < 3 ==> qs[i].id == i + 1 && qs[i].required && qs[i].choices.None?
    ensures qs[0].title == "Email Address" && qs[0].qtype == "email" && qs[0].encrypted && qs[0].hidden
    ensures qs[1].title == "Funding Sources" && qs[1].qtype == "short-answer" && !qs[1].encrypted && !qs[1].hidden
    ensures qs[2].title == "Team Size" && qs[2].qtype == "number" && !qs[2].encrypted && !qs[2].hidden
  {
    [
      SchemaQuestion(1, "Email Address", "email", true, true, None, true),
      SchemaQuestion(2, "Funding Sources", "short-answer", true, false, None, false),
      SchemaQuestion(3, "Team Size", "number", true, false, None, false)
    ]
  }

  /** What the add/edit modal hands back on save: an index when editing, the question when filled in. */
  datatype EditQuestion = EditQuestion(index: Option<int>, field: Option<SchemaQuestion>)

  /** An edit index refers to an entry of the list (the only indices the controls offer). */
  predicate IndexInRange(fields: seq<SchemaQuestion>, question: EditQuestion) {
    question.index.Some? ==> 0 <= question.index.value < |fields|
  }

  /**
   * The list after `addOrEditQuestion`: unchanged without a question; with
   * no index the question is appended with id equal to the old length; with
   * an index (0 included) the entry at that index is replaced.
   */
  function AddOrEdit(fields: seq<SchemaQuestion>, question: EditQuestion): (r: seq<SchemaQuestion>)
    requires IndexInRange(fields, question)
    ensures question.field.None? ==> r == fields
    ensures question.field.Some? && question.index.None? ==>
      |r| == |fields| + 1 && r[..|fields|] == fields && r[|fields|] == question.field.value.(id := |fields|)
    ensures question.field.Some? && question.index.Some? ==>
      |r| == |fields| && r[question.index.value] == question.field.value
      && forall j :: 0 <= j < |fields| && j != question.index.value ==> r[j] == fields[j]
  {
    match question.field
    case None => fields
    case Some(q) =>
      match question.index
      case None => fields + [q.(id := |fields|)]
      case Some(i) => fields[i := q]
  }

  /** The list after removing the entry at `key`: the others keep their order. */
  function RemoveAt(fields: seq<SchemaQuestion>, key: int): (r: seq<SchemaQuestion>)
    requires 0 <= key < |fields|
    ensures |r| == |fields| - 1
    ensures forall j :: 0 <= j < key ==> r[j] == fields[j]
    ensures forall j :: key <= j < |r| ==> r[j] == fields[j + 1]
  {
    fields[..key] + fields[key + 1..]
  }

  /** Removing loses exactly the removed question and nothing else. */
  lemma RemoveAtLosesOne(fields: seq<SchemaQuestion>, key: int)
    requires 0 <= key < |fields|
    ensures multiset(RemoveAt(fields, key)) + multiset{fields[key]} == multiset(fields)
  {
    assert fields == fields[..key] + [fields[key]] + fields[key + 1..];
  }

  /**
   * Ids are not unique: appending a question to the untouched default list
   * gives it id 3, which "Team Size" already has.
   */
  lemma AppendToDefaultsRepeatsId(q: SchemaQuestion)
    ensures var r := AddOrEdit(InitialQuestions(), EditQuestion(None, Some(q)));
      |r| == 4 && r[3].id == r[2].id == 3
  {
    var r := AddOrEdit(InitialQuestions(), EditQuestion(None, Some(q)));
    assert r[3] == q.(id := 3);
  }

  /** One rendered row: the question and the key handed to its controls. */
  datatype Row = Row(question: SchemaQuestion, key: int)

  /** `[lockedQuestion, ...f]`: the payout question with key -1, then the list with keys 0..n-1. */
  function Rows(fields: seq<SchemaQuestion>): (rows: seq<Row>)
    ensures |rows| == |fields| + 1
    ensures rows[0] == Row(PayoutQuestion(), -1)
    ensures forall i :: 0 <= i < |fields| ==> rows[i + 1] == Row(fields[i], i)
  {
    [Row(PayoutQuestion(), -1)] + seq(|fields|, i requires 0 <= i < |fields| => Row(fields[i], i))
  }

  /** The edit and remove controls are rendered only for a non-negative key. */
  predicate HasControls(row: Row) {
    row.key >= 0
  }

  /**
   * Every row but the first has controls, and the key of such a row is a
   * valid index of the list that holds exactly that row's question; the
   * locked question has none, so no edit or remove can reach it.
   */
  lemma ControlsTargetTheirOwnQuestion(fields: seq<SchemaQuestion>, i: int)
    requires 0 <= i < |Rows(fields)|
    ensures HasControls(Rows(fields)[i]) <==> i > 0
    ensures HasControls(Rows(fields)[i]) ==>
      0 <= Rows(fields)[i].key < |fields| && fields[Rows(fields)[i].key] == Rows(fields)[i].question
  {
    if i > 0 {
      assert Rows(fields)[(i - 1) + 1] == Row(fields[i - 1], i - 1);
    }
  }

  /** The editable part of the form: the list and the add/edit modal. */
  class ApplicationQuestionsState {
    var fields: seq<SchemaQuestion>
    var openAddQuestionModal: bool
    var toEdit: Option<EditQuestion>

    constructor (questions: seq<SchemaQuestion>)
      ensures fields == questions && !openAddQuestionModal && toEdit.None?
    {
      fields := questions;
      openAddQuestionModal := false;
      toEdit := None;
    }

    /** The "Add question" button: a blank modal. */
    method OpenAdd()
      modifies this`toEdit, this`openAddQuestionModal
      ensures toEdit.None? && openAddQuestionModal
    {
      toEdit := None;
      openAddQuestionModal := true;
    }

    /** The pencil of the row with key `key`: the modal opens on that entry. */
    method OpenEdit(key: int)
      requires 0 <= key < |fields|
      modifies this`toEdit, this`openAddQuestionModal
      ensures toEdit == Some(EditQuestion(Some(key), Some(fields[key]))) && openAddQuestionModal
    {
      toEdit := Some(EditQuestion(Some(key), Some(fields[key])));
      openAddQuestionModal := true;
    }

    /** The modal's close action. */
    method CloseModal()
      modifies this`toEdit, this`openAddQuestionModal
      ensures toEdit.None? && !openAddQuestionModal
    {
      toEdit := None;
      openAddQuestionModal := false;
    }

    /** `addOrEditQuestion`: the modal closes in every case, then the list is saved into. */
    method AddOrEditQuestion(question: EditQuestion)
      requires IndexInRange(fields, question)
      modifies this`fields, this`openAddQuestionModal
      ensures !openAddQuestionModal
      ensures fields == AddOrEdit(old(fields), question)
    {
      openAddQuestionModal := false;
      if question.field.Some? {
        if question.index.None? {
          fields := fields + [question.field.value.(id := |fields|)];
        } else {
          fields := fields[question.index.value := question.field.value];
        }
      }
    }

    /** The cross of the row with key `key`. */
    method RemoveQuestion(key: int)
      requires 0 <= key < |fields|
      modifies this`fields
      ensures fields == RemoveAt(old(fields), key)
    {
      fields := fields[..key] + fields[key + 1..];
    }
  }
}
