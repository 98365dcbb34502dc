/** The orders page: product selection in the creation form and the submit handler. */
module PedidosPage {
  import opened Wrappers

  /** `CreatePedidoData`: the chosen customer (0 = none chosen) and the chosen product ids. */
  datatype FormData = FormData(clienteId: int, produtos: seq<int>)

  /** The form's initial value, restored after every successful submission. */
  const InitialForm := FormData(0, [])

  // ---------------------------------------------------------------- product selection

  /** The selection filtered by strict inequality: every occurrence of `x` dropped, the rest kept in order. */
  function Remove(s: seq<int>, x: int): (r: seq<int>)
    ensures x !in r
    ensures forall y :: y in r <==> y in s && y != x
    ensures |r| <= |s|
    ensures x !in s ==> r == s
  {
    if s == [] then []
    else if s[0] == x then Remove(s[1..], x)
    else [s[0]] + Remove(s[1..], x)
  }

  /** `toggleProduto`: drop the id if it is selected, append it otherwise; the customer is untouched. */
  function Toggle(f: FormData, id: int): (r: FormData)
    ensures r.clienteId == f.clienteId
    ensures id in r.produtos <==> id !in f.produtos
    ensures id !in f.produtos ==> r.produtos == f.produtos + [id]
    ensures forall y :: y != id ==> (y in r.produtos <==> y in f.produtos)
  {
    f.(produtos := if id in f.produtos then Remove(f.produtos, id) else f.produtos + [id])
  }

  predicate Distinct(s: seq<int>)
  {
    forall i, j :: 0 <= i < j < |s| ==> s[i] != s[j]
  }

  /** `a` is `b` with some elements left out, the others in their original order. */
  predicate IsSubsequence(a: seq<int>, b: seq<int>)
    decreases |b|
  {
    if a == [] then true
    else if b == [] then false
    else if a[0] == b[0] then IsSubsequence(a[1..], b[1..])
    else IsSubsequence(a, b[1..])
  }

  lemma {:induction false} RemoveAppend(a: seq<int>, b: seq<int>, x: int)
    ensures Remove(a + b, x) == Remove(a, x) + Remove(b, x)
  {
    if a == [] {
      assert a + b == b;
    } else {
      assert (a + b)[0] == a[0];
      assert (a + b)[1..] == a[1..] + b;
      RemoveAppend(a[1..], b, x);
    }
  }

  /** Exactly the occurrences of `x` are dropped: every other id keeps its number of occurrences. */
  lemma {:induction false} RemoveCounts(s: seq<int>, x: int)
    ensures multiset(Remove(s, x)) == multiset(s)[x := 0]
  {
    if s != [] {
      RemoveCounts(s[1..], x);
      assert s == [s[0]] + s[1..];
      assert multiset(s) == multiset{s[0]} + multiset(s[1..]);
    }
  }

  lemma {:induction false} RemoveKeepsOrder(s: seq<int>, x: int)
    ensures IsSubsequence(Remove(s, x), s)
    decreases |s|
  {
    if s != [] {
      RemoveKeepsOrder(s[1..], x);
      if s[0] == x {
        SubsequenceOfTail(Remove(s[1..], x), s);
      } else {
        assert ([s[0]] + Remove(s[1..], x))[1..] == Remove(s[1..], x);
      }
    }
  }

  /** Putting one more element in front of `b` keeps `a` a subsequence of it. */
  lemma {:induction false} SubsequenceOfTail(a: seq<int>, b: seq<int>)
    requires b != [] && IsSubsequence(a, b[1..])
    ensures IsSubsequence(a, b)
    decreases |b|, 1
  {
    if a != [] && a[0] == b[0] {
      SubsequenceDropHead(a, b[1..]);
    }
  }

  /** Leaving out the first element of a subsequence gives a subsequence. */
  lemma {:induction false} SubsequenceDropHead(a: seq<int>, c: seq<int>)
    requires a != [] && IsSubsequence(a, c)
    ensures IsSubsequence(a[1..], c)
    decreases |c| + 1, 0
  {
    if a[1..] != [] {
      if a[0] == c[0] {
        SubsequenceOfTail(a[1..], c);
      } else {
        SubsequenceDropHead(a, c[1..]);
        SubsequenceOfTail(a[1..], c);
      }
    }
  }

  lemma {:induction false} RemoveKeepsDistinct(s: seq<int>, x: int)
    requires Distinct(s)
    ensures Distinct(Remove(s, x))
  {
    if s != [] {
      assert Distinct(s[1..]) by {
        forall i, j | 0 <= i < j < |s[1..]| ensures s[1..][i] != s[1..][j] {
          assert s[1..][i] == s[i + 1] && s[1..][j] == s[j + 1];
        }
      }
      RemoveKeepsDistinct(s[1..], x);
      if s[0] != x {
        assert s[0] !in s[1..] by {
          forall k | 0 <= k < |s[1..]| ensures s[1..][k] != s[0] {
            assert s[1..][k] == s[k + 1];
          }
        }
        ConsDistinct(s[0], Remove(s[1..], x));
      }
    }
  }

  lemma ConsDistinct(h: int, t: seq<int>)
    requires h !in t && Distinct(t)
    ensures Distinct([h] + t)
  {
  }

  /** A selection without repeated ids never gets one from a toggle. */
  lemma ToggleKeepsDistinct(f: FormData, id: int)
    requires Distinct(f.produtos)
    ensures Distinct(Toggle(f, id).produtos)
  {
    if id in f.produtos {
      RemoveKeepsDistinct(f.produtos, id);
    } else {
      var s := f.produtos + [id];
      forall i, j | 0 <= i < j < |s| ensures s[i] != s[j] {
        assert s[i] == f.produtos[i];
        if j == |f.produtos| {
          assert s[i] in f.produtos;
        }
      }
    }
  }

  /** Deselecting keeps the other selected ids, each as often as before and in their order. */
  lemma TogglePresentKeepsOthers(f: FormData, id: int)
    requires id in f.produtos
    ensures id !in Toggle(f, id).produtos
    ensures multiset(Toggle(f, id).produtos) == multiset(f.produtos)[id := 0]
    ensures IsSubsequence(Toggle(f, id).produtos, f.produtos)
  {
    RemoveCounts(f.produtos, id);
    RemoveKeepsOrder(f.produtos, id);
  }

  /** Selecting an unselected product and deselecting it again restores the form. */
  lemma ToggleTwiceRestores(f: FormData, id: int)
    requires id !in f.produtos
    ensures Toggle(Toggle(f, id), id) == f
  {
    RemoveAppend(f.produtos, [id], id);
    assert Remove([id], id) == [];
  }

  // ---------------------------------------------------------------- submission

  datatype MessageKind = Success | Error

  /** The feedback banner `{ type, text }`. */
  datatype Message = Message(kind: MessageKind, text: string)

  const MissingSelectionText := "Selecione um cliente e pelo menos um produto"
  const CreatedText := "Pedido criado com sucesso!"
  const DefaultFailText := "Erro ao criar pedido"

  /**
   * How `api.post('/pedidos', formData)` ended: resolved, or rejected with the `error` field of
   * the response body when the server sent one.
   */
  datatype PostOutcome = Posted | Failed(serverError: Option<string>)

  /**
   * The text shown after a failed post: the server's error text when there is one and it is not
   * empty (an empty string is falsy), otherwise the page's default failure text.
   */
  function FailureText(serverError: Option<string>): (text: string)
    ensures text != ""
    ensures serverError.Some? && serverError.value != "" ==> text == serverError.value
    ensures serverError.None? || serverError.value == "" ==> text == "Erro ao criar pedido"
  {
    match serverError
    case Some(t) => if t != "" then t else DefaultFailText
    case None => DefaultFailText
  }

  /** The page's state as the submit handler sees it, with the forms it posted and the reloads it started. */
  datatype PageState = PageState(
    formData: FormData,
    showForm: bool,
    isSubmitting: bool,
    message: Option<Message>,
    sent: seq<FormData>,
    reloads: nat)

  /** The page on first render. */
  const InitialPage := PageState(InitialForm, false, false, None, [], 0)

  /** The submit guard: a customer chosen and at least one product selected. */
  predicate CanSubmit(f: FormData)
  {
    f.clienteId != 0 && |f.produtos| > 0
  }

  /** `handleSubmit`, as a function of the state before and the outcome of the post. */
  function AfterSubmit(s: PageState, outcome: PostOutcome): (r: PageState)
    ensures !r.isSubmitting
    ensures !CanSubmit(s.formData) ==>
              r == s.(isSubmitting := false, message := Some(Message(Error, "Selecione um cliente e pelo menos um produto")))
    ensures CanSubmit(s.formData) ==> r.sent == s.sent + [s.formData]
    ensures CanSubmit(s.formData) && outcome.Posted? ==>
              r.formData == FormData(0, []) && !r.showForm &&
              r.message == Some(Message(Success, "Pedido criado com sucesso!")) &&
              r.reloads == s.reloads + 1
    ensures CanSubmit(s.formData) && outcome.Failed? ==>
              r.formData == s.formData && r.showForm == s.showForm && r.reloads == s.reloads &&
              r.message == Some(Message(Error, FailureText(outcome.serverError)))
  {
    if !CanSubmit(s.formData) then
      s.(isSubmitting := false, message := Some(Message(Error, MissingSelectionText)))
    else
      match outcome
      case Posted =>
        s.(formData := InitialForm, showForm := false, isSubmitting := false,
           message := Some(Message(Success, CreatedText)),
           sent := s.sent + [s.formData], reloads := s.reloads + 1)
      case Failed(e) =>
        s.(isSubmitting := false, message := Some(Message(Error, FailureText(e))),
           sent := s.sent + [s.formData])
  }

  /** Submitting a blocked form sends nothing, and a second try is blocked the same way. */
  lemma BlockedSubmitSendsNothing(s: PageState, o1: PostOutcome, o2: PostOutcome)
    requires !CanSubmit(s.formData)
    ensures AfterSubmit(s, o1).sent == s.sent
    ensures AfterSubmit(AfterSubmit(s, o1), o2) == AfterSubmit(s, o1)
  {
  }

  /** After a successful submission the form is back to its initial value and cannot be resubmitted as is. */
  lemma SuccessResetsForm(s: PageState)
    requires CanSubmit(s.formData)
    ensures AfterSubmit(s, Posted).formData == InitialPage.formData
    ensures !CanSubmit(AfterSubmit(s, Posted).formData)
  {
  }

  /** A failed post keeps the selection, so submitting again sends the same form. */
  lemma FailureAllowsRetry(s: PageState, e: Option<string>, o: PostOutcome)
    requires CanSubmit(s.formData)
    ensures AfterSubmit(AfterSubmit(s, Failed(e)), o).sent == s.sent + [s.formData, s.formData]
  {
  }

  /** The page that owns the form: React state hooks become fields that the handlers update. */
  class Page {
    var formData: FormData
    var showForm: bool
    var isSubmitting: bool
    var message: Option<Message>
    var sent: seq<FormData>
    var reloads: nat

    function State(): PageState
      reads this
    {
      PageState(formData, showForm, isSubmitting, message, sent, reloads)
    }

    constructor ()
      ensures State() == InitialPage
    {
      formData := InitialForm;
      showForm := false;
      isSubmitting := false;
      message := None;
      sent := [];
      reloads := 0;
    }

    /** The "Novo Pedido" / "Cancelar" button. */
    method ToggleForm()
      modifies this
      ensures State() == old(State()).(showForm := !old(showForm))
    {
      showForm := !showForm;
    }

    /** The customer select: the form keeps its products and takes the chosen customer id. */
    method SelectCliente(clienteId: int)
      modifies this
      ensures State() == old(State()).(formData := old(formData).(clienteId := clienteId))
    {
      formData := formData.(clienteId := clienteId);
    }

    /** A click on a product card. */
    method ToggleProduto(produtoId: int)
      modifies this
      ensures State() == old(State()).(formData := Toggle(old(formData), produtoId))
    {
      formData := Toggle(formData, produtoId);
    }

    /** `handleSubmit`, with the outcome of the post supplied by the caller. */
    method HandleSubmit(outcome: PostOutcome)
      modifies this
      ensures State() == AfterSubmit(old(State()), outcome)
    {
      isSubmitting := true;
      message := None;

      if formData.clienteId == 0 || |formData.produtos| == 0 {
        message := Some(Message(Error, MissingSelectionText));
        isSubmitting := false;
        return;
      }

      sent := sent + [formData];
      match outcome {
        case Posted =>
          message := Some(Message(Success, CreatedText));
          formData := InitialForm;
          showForm := false;
          reloads := reloads + 1;
        case Failed(e) =>
          message := Some(Message(Error, FailureText(e)));
      }
      isSubmitting := false;
    }
  }
}
