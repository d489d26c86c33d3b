/** The vehicle detail page (`DetalhesVeiculo`): the photo carousel, the status badge, the
    status actions it offers, and the confirmation that guards each request. */
module VehicleDetail {
  import opened Basics

  // ---------------------------------------------------------------------------------------
  // Photo carousel

  /** The left arrow: the first photo wraps to the last one. */
  function PrevIndex(i: int, n: nat): (r: int)
    ensures 0 <= i < n ==> 0 <= r < n
  {
    if i == 0 then n - 1 else i - 1
  }

  /** The right arrow: the last photo wraps to the first one. */
  function NextIndex(i: int, n: nat): (r: int)
    ensures 0 <= i < n ==> 0 <= r < n
  {
    if i == n - 1 then 0 else i + 1
  }

  /** The arrows undo each other. */
  lemma PrevNextInverse(i: int, n: nat)
    requires 0 <= i < n
    ensures NextIndex(PrevIndex(i, n), n) == i
    ensures PrevIndex(NextIndex(i, n), n) == i
  {
  }

  /** The arrows are steps of one modulo the photo count. */
  lemma ArrowsAreModular(i: int, n: nat)
    requires 0 <= i < n
    ensures NextIndex(i, n) == (i + 1) % n
    ensures PrevIndex(i, n) == (i + n - 1) % n
  {
    if i == n - 1 {
      assert (i + 1) % n == 0;
    } else {
      assert (i + 1) % n == i + 1;
    }
    if i == 0 {
      assert (i + n - 1) % n == n - 1;
    } else {
      assert (i + n - 1) % n == i - 1 by {
        assert i + n - 1 == (i - 1) + n;
      }
    }
  }

  /** The index after `k` clicks on the right arrow. */
  function NextTimes(i: int, n: nat, k: nat): (r: int)
    ensures 0 <= i < n ==> 0 <= r < n
  {
    if k == 0 then i else NextIndex(NextTimes(i, n, k - 1), n)
  }

  /** Clicks on the right arrow compose. */
  lemma {:induction false} NextTimesAdd(i: int, n: nat, a: nat, b: nat)
    ensures NextTimes(i, n, a + b) == NextTimes(NextTimes(i, n, a), n, b)
    decreases b
  {
    if b > 0 {
      NextTimesAdd(i, n, a, b - 1);
    }
  }

  /** Before the wrap, `k` clicks advance by exactly `k`. */
  lemma {:induction false} NextTimesAdvance(i: int, n: nat, k: nat)
    requires 0 <= i && i + k < n
    ensures NextTimes(i, n, k) == i + k
    decreases k
  {
    if k > 0 {
      NextTimesAdvance(i, n, k - 1);
    }
  }

  /** How many clicks on the right arrow lead from photo `i` to photo `j`. */
  function ClicksTo(i: int, j: int, n: nat): (k: nat)
    requires 0 <= i < n && 0 <= j < n
  {
    if i <= j then j - i else n - i + j
  }

  /** From photo `i`, `ClicksTo(i, j, n)` clicks on the right arrow land on photo `j`. */
  lemma NextReaches(i: int, j: int, n: nat)
    requires 0 <= i < n && 0 <= j < n
    ensures ClicksTo(i, j, n) < n && NextTimes(i, n, ClicksTo(i, j, n)) == j
  {
    if i <= j {
      NextTimesAdvance(i, n, j - i);
    } else {
      NextTimesAdvance(i, n, n - 1 - i);
      assert NextTimes(i, n, n - i) == 0;
      NextTimesAdd(i, n, n - i, j);
      if j > 0 {
        NextTimesAdvance(0, n, j - 1);
      }
    }
  }

  /** `n` clicks on the right arrow come back to the start, and every photo is reached on
      the way. */
  lemma NextCycle(i: int, n: nat)
    requires 0 <= i < n
    ensures NextTimes(i, n, n) == i
    ensures forall j :: 0 <= j < n ==> ClicksTo(i, j, n) < n && NextTimes(i, n, ClicksTo(i, j, n)) == j
  {
    // Reaching the last photo and wrapping to the first one.
    NextTimesAdvance(i, n, n - 1 - i);
    assert NextTimes(i, n, n - i) == 0;
    NextTimesAdd(i, n, n - i, i);
    if i > 0 {
      NextTimesAdvance(0, n, i - 1);
    }
    forall j | 0 <= j < n
      ensures ClicksTo(i, j, n) < n && NextTimes(i, n, ClicksTo(i, j, n)) == j
    {
      NextReaches(i, j, n);
    }
  }

  /** The carousel state: the photo count of the loaded vehicle and `fotoAtual`. */
  class Gallery {
    const count: nat
    var fotoAtual: int

    ghost predicate Valid()
      reads this
    {
      if count == 0 then fotoAtual == 0 else 0 <= fotoAtual < count
    }

    constructor (count: nat)
      ensures Valid() && this.count == count && fotoAtual == 0
    {
      this.count := count;
      fotoAtual := 0;
    }

    /** The left arrow; the arrows are only shown with more than one photo. */
    method Previous()
      requires Valid() && count > 1
      modifies this
      ensures Valid()
      ensures fotoAtual == PrevIndex(old(fotoAtual), count)
      ensures NextIndex(fotoAtual, count) == old(fotoAtual)
    {
      PrevNextInverse(fotoAtual, count);
      fotoAtual := if fotoAtual == 0 then count - 1 else fotoAtual - 1;
    }

    /** The right arrow. */
    method Next()
      requires Valid() && count > 1
      modifies this
      ensures Valid()
      ensures fotoAtual == NextIndex(old(fotoAtual), count)
      ensures PrevIndex(fotoAtual, count) == old(fotoAtual)
    {
      PrevNextInverse(fotoAtual, count);
      fotoAtual := if fotoAtual == count - 1 then 0 else fotoAtual + 1;
    }

    /** A dot or a thumbnail: jump to that photo. */
    method Select(index: nat)
      requires Valid() && count > 1 && index < count
      modifies this
      ensures Valid() && fotoAtual == index
    {
      fotoAtual := index;
    }
  }

  // ---------------------------------------------------------------------------------------
  // Status

  const Disponivel := "disponivel"
  const Reservado := "reservado"
  const Vendido := "vendido"

  predicate IsStatus(s: string)
  {
    s == Disponivel || s == Reservado || s == Vendido
  }

  /** The targets of the status buttons shown for `status`, in button order. */
  function OfferedTargets(status: string): (r: seq<string>)
    ensures status !in r
    ensures forall t :: t in r ==> IsStatus(t)
    ensures IsStatus(status) <==> r != []
    ensures IsStatus(status) && status != Vendido ==> Vendido in r
    ensures IsStatus(status) && status != Disponivel ==> Disponivel in r
    ensures Reservado in r <==> status == Disponivel
  {
    if status == Disponivel then [Reservado, Vendido]
    else if status == Reservado then [Disponivel, Vendido]
    else if status == Vendido then [Disponivel]
    else []
  }

  /** A sold vehicle can only go back to available; every status reaches every other one in
      at most two confirmed clicks. */
  lemma OfferedGraph(s: string, t: string)
    requires IsStatus(s) && IsStatus(t) && s != t
    ensures t in OfferedTargets(s) || (Disponivel in OfferedTargets(s) && t in OfferedTargets(Disponivel))
    ensures s == Vendido ==> OfferedTargets(s) == [Disponivel]
  {
  }

  datatype BadgeColor = Green | Yellow | Red

  /** The status badge: green when available, yellow when reserved, red for anything else. */
  function Badge(status: string): (c: BadgeColor)
    ensures c == Green <==> status == Disponivel
    ensures c == Yellow <==> status == Reservado
    ensures c == Red <==> status != Disponivel && status != Reservado
  {
    if status == Disponivel then Green
    else if status == Reservado then Yellow
    else Red
  }

  // ---------------------------------------------------------------------------------------
  // Confirmed requests

  datatype ApiRequest = PatchStatus(id: string, status: string) | DeleteRequest(id: string)

  /** `atualizarStatus`: asks for confirmation; a declined dialog issues no request. */
  method AtualizarStatus(id: string, novoStatus: string, confirmed: bool)
    returns (request: Option<ApiRequest>)
    ensures request.Some? <==> confirmed
    ensures confirmed ==> request.value == PatchStatus(id, novoStatus)
  {
    if !confirmed {
      return None;
    }
    request := Some(PatchStatus(id, novoStatus));
  }

  /** `deletarVeiculo`: asks for confirmation; a declined dialog issues no request. */
  method DeletarVeiculo(id: string, confirmed: bool) returns (request: Option<ApiRequest>)
    ensures request.Some? <==> confirmed
    ensures confirmed ==> request.value == DeleteRequest(id)
  {
    if !confirmed {
      return None;
    }
    request := Some(DeleteRequest(id));
  }
}
