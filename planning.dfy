/**
 * The route allocation planner as pure functions: route weight and length,
 * the route check, the ordering of pending orders, the first-fit search for a
 * 3-, 2- or 1-stop route, and the whole allocation over the fleet.
 * `DroneService` runs these steps imperatively; its methods are proved to
 * compute exactly what these functions define.
 */
module Planning {
  import opened Enums
  import opened Options
  import opened GeoUtils
  import opened Model

  // ---------------------------------------------------------------------------
  // Weight and distance of a route base -> stop 1 -> ... -> stop n -> base
  // ---------------------------------------------------------------------------

  /** The summed weight of the orders of a route. */
  function PesoTotal(rota: seq<Pedido>): real
  {
    if rota == [] then 0.0 else PesoTotal(rota[..|rota| - 1]) + rota[|rota| - 1].pesoKg
  }

  /** Where a drone stands after flying the route's stops: the last stop, or the base. */
  function Fim(rota: seq<Pedido>): (real, real)
  {
    if rota == [] then (0.0, 0.0) else (rota[|rota| - 1].x, rota[|rota| - 1].y)
  }

  /** The length of the outbound path base -> stop 1 -> ... -> stop n (no return leg). */
  function Percurso(sqrt: real -> real, rota: seq<Pedido>): real
  {
    if rota == [] then 0.0
    else
      var ini := rota[..|rota| - 1];
      var p := rota[|rota| - 1];
      Percurso(sqrt, ini) + DistanciaKm(sqrt, Fim(ini).0, Fim(ini).1, p.x, p.y)
  }

  /** The length of the round trip: the outbound path plus the leg back to the base. */
  function DistanciaRota(sqrt: real -> real, rota: seq<Pedido>): real
  {
    Percurso(sqrt, rota) + DistanciaKm(sqrt, Fim(rota).0, Fim(rota).1, 0.0, 0.0)
  }

  /** A drone can fly a route when the load fits its capacity and the round trip fits its range. */
  predicate RotaValida(sqrt: real -> real, d: Drone, rota: seq<Pedido>)
  {
    PesoTotal(rota) <= d.capacidadeKg && DistanciaRota(sqrt, rota) <= d.alcanceKm
  }

  /** The round trip of a 1-, 2- or 3-stop route, leg by leg. */
  lemma DistanciaRotaPorTrechos(sqrt: real -> real, rota: seq<Pedido>)
    requires 1 <= |rota| <= 3
    ensures |rota| == 1 ==>
      DistanciaRota(sqrt, rota) ==
        DistanciaKm(sqrt, 0.0, 0.0, rota[0].x, rota[0].y) + DistanciaKm(sqrt, rota[0].x, rota[0].y, 0.0, 0.0)
    ensures |rota| == 2 ==>
      DistanciaRota(sqrt, rota) ==
        DistanciaKm(sqrt, 0.0, 0.0, rota[0].x, rota[0].y) + DistanciaKm(sqrt, rota[0].x, rota[0].y, rota[1].x, rota[1].y)
        + DistanciaKm(sqrt, rota[1].x, rota[1].y, 0.0, 0.0)
    ensures |rota| == 3 ==>
      DistanciaRota(sqrt, rota) ==
        DistanciaKm(sqrt, 0.0, 0.0, rota[0].x, rota[0].y) + DistanciaKm(sqrt, rota[0].x, rota[0].y, rota[1].x, rota[1].y)
        + DistanciaKm(sqrt, rota[1].x, rota[1].y, rota[2].x, rota[2].y) + DistanciaKm(sqrt, rota[2].x, rota[2].y, 0.0, 0.0)
    ensures PesoTotal(rota) == if |rota| == 1 then rota[0].pesoKg
                               else if |rota| == 2 then rota[0].pesoKg + rota[1].pesoKg
                               else rota[0].pesoKg + rota[1].pesoKg + rota[2].pesoKg
  {
    var um := rota[..1];
    assert um[..0] == [];
    assert Percurso(sqrt, um) == DistanciaKm(sqrt, 0.0, 0.0, rota[0].x, rota[0].y);
    assert PesoTotal(um) == rota[0].pesoKg;
    if |rota| == 1 {
      assert rota == um;
    } else {
      var dois := rota[..2];
      assert dois[..1] == um;
      assert Percurso(sqrt, dois) == Percurso(sqrt, um) + DistanciaKm(sqrt, rota[0].x, rota[0].y, rota[1].x, rota[1].y);
      assert PesoTotal(dois) == PesoTotal(um) + rota[1].pesoKg;
      if |rota| == 2 {
        assert rota == dois;
      } else {
        assert rota[..2] == dois;
        assert Percurso(sqrt, rota) == Percurso(sqrt, dois) + DistanciaKm(sqrt, rota[1].x, rota[1].y, rota[2].x, rota[2].y);
      }
    }
  }

  /** With a real square root, every route length is non-negative. */
  lemma {:induction false} PercursoNaoNegativo(sqrt: real -> real, rota: seq<Pedido>)
    requires IsSqrt(sqrt)
    ensures 0.0 <= Percurso(sqrt, rota) <= DistanciaRota(sqrt, rota)
  {
    if rota != [] {
      PercursoNaoNegativo(sqrt, rota[..|rota| - 1]);
    }
  }

  // ---------------------------------------------------------------------------
  // Ordering of pending orders: priority descending, then arrival ascending
  // ---------------------------------------------------------------------------

  /** `p` may stand before `q`: higher priority, or equal priority and arrived no later. */
  predicate Precede(p: Pedido, q: Pedido)
  {
    p.prioridade.Ordinal() > q.prioridade.Ordinal()
    || (p.prioridade.Ordinal() == q.prioridade.Ordinal() && p.dataChegadaTimestamp <= q.dataChegadaTimestamp)
  }

  predicate Ordenada(s: seq<Pedido>)
  {
    forall i, j :: 0 <= i < j < |s| ==> Precede(s[i], s[j])
  }

  /** Inserts `p` before the first element it may precede, so it stays ahead of equal keys. */
  function Insere(p: Pedido, s: seq<Pedido>): seq<Pedido>
  {
    if s == [] || Precede(p, s[0]) then [p] + s else [s[0]] + Insere(p, s[1..])
  }

  /** The stable sort of the planner's comparator, as an insertion sort. */
  function OrdenarPorPrioridade(s: seq<Pedido>): seq<Pedido>
  {
    if s == [] then [] else Insere(s[0], OrdenarPorPrioridade(s[1..]))
  }

  lemma {:induction false} InsereOrdena(p: Pedido, s: seq<Pedido>)
    requires Ordenada(s)
    ensures Ordenada(Insere(p, s))
    ensures multiset(Insere(p, s)) == multiset(s) + multiset{p}
  {
    if s == [] || Precede(p, s[0]) {
      var r := [p] + s;
      forall i, j | 0 <= i < j < |r| ensures Precede(r[i], r[j]) {
        if i == 0 && j > 1 {
          assert Precede(s[0], s[j - 1]);
        }
      }
    } else {
      InsereOrdena(p, s[1..]);
      var t := Insere(p, s[1..]);
      var r := [s[0]] + t;
      assert s == [s[0]] + s[1..];
      assert multiset(t) == multiset(s[1..]) + multiset{p};
      forall j | 0 <= j < |t| ensures Precede(s[0], t[j]) {
        assert t[j] in multiset(t);
        if t[j] == p {
        } else {
          assert t[j] in multiset(s[1..]);
          var m :| 0 <= m < |s[1..]| && s[1..][m] == t[j];
          assert Precede(s[0], s[m + 1]);
        }
      }
      forall i, j | 0 <= i < j < |r| ensures Precede(r[i], r[j]) {
        if i > 0 {
          assert Precede(t[i - 1], t[j - 1]);
        }
      }
    }
  }

  /** The comparator's key of an order: its priority's rank and its arrival time. */
  function Chave(p: Pedido): (int, int)
  {
    (p.prioridade.Ordinal(), p.dataChegadaTimestamp)
  }

  /** The orders of `s` whose key is `k`, in their order in `s`. */
  function DeChave(s: seq<Pedido>, k: (int, int)): (r: seq<Pedido>)
    ensures forall p :: p in r ==> p in s && Chave(p) == k
  {
    if s == [] then [] else (if Chave(s[0]) == k then [s[0]] else []) + DeChave(s[1..], k)
  }

  /**
   * Inserting `p` passes only orders with a strictly smaller key, so among the orders of
   * its key it lands first.
   */
  lemma {:induction false} InsereEstavel(p: Pedido, s: seq<Pedido>, k: (int, int))
    ensures DeChave(Insere(p, s), k) == (if Chave(p) == k then [p] else []) + DeChave(s, k)
  {
    if s == [] || Precede(p, s[0]) {
      DeChaveCons(p, s, k);
    } else {
      var t := Insere(p, s[1..]);
      assert Insere(p, s) == [s[0]] + t;
      DeChaveCons(s[0], t, k);
      DeChaveCons(s[0], s[1..], k);
      assert s == [s[0]] + s[1..];
      InsereEstavel(p, s[1..], k);
      var a, b := (if Chave(s[0]) == k then [s[0]] else []), (if Chave(p) == k then [p] else []);
      assert a == [] || b == [] by { assert Chave(s[0]) != Chave(p); }
      assert a + (b + DeChave(s[1..], k)) == b + (a + DeChave(s[1..], k));
    }
  }

  /** The orders of key `k` in a list headed by `x`: `x` when it has that key, then those of the tail. */
  lemma DeChaveCons(x: Pedido, t: seq<Pedido>, k: (int, int))
    ensures DeChave([x] + t, k) == (if Chave(x) == k then [x] else []) + DeChave(t, k)
  {
    assert ([x] + t)[1..] == t;
  }

  /**
   * The sort yields the pending orders in planning order, and exactly the same ones; it
   * is stable: the orders sharing a key keep their relative order.
   */
  lemma {:induction false} OrdenarPorPrioridadeCorreta(s: seq<Pedido>)
    ensures Ordenada(OrdenarPorPrioridade(s))
    ensures multiset(OrdenarPorPrioridade(s)) == multiset(s)
    ensures forall k :: DeChave(OrdenarPorPrioridade(s), k) == DeChave(s, k)
  {
    if s != [] {
      OrdenarPorPrioridadeCorreta(s[1..]);
      InsereOrdena(s[0], OrdenarPorPrioridade(s[1..]));
      assert s == [s[0]] + s[1..];
      forall k ensures DeChave(OrdenarPorPrioridade(s), k) == DeChave(s, k) {
        InsereEstavel(s[0], OrdenarPorPrioridade(s[1..]), k);
      }
    }
  }

  // ---------------------------------------------------------------------------
  // First-fit search over the sorted pending list
  // ---------------------------------------------------------------------------

  /** Positions i < j < k of `a` whose orders form a route the drone can fly. */
  predicate TrioValido(sqrt: real -> real, d: Drone, a: seq<Pedido>, i: int, j: int, k: int)
  {
    0 <= i < j < k < |a| && RotaValida(sqrt, d, [a[i], a[j], a[k]])
  }

  predicate ParValido(sqrt: real -> real, d: Drone, a: seq<Pedido>, i: int, j: int)
  {
    0 <= i < j < |a| && RotaValida(sqrt, d, [a[i], a[j]])
  }

  predicate UmValido(sqrt: real -> real, d: Drone, a: seq<Pedido>, i: int)
  {
    0 <= i < |a| && RotaValida(sqrt, d, [a[i]])
  }

  /** (i, j, k) comes strictly before (i', j', k') in lexicographic order. */
  predicate LexMenor3(i: int, j: int, k: int, i': int, j': int, k': int)
  {
    i < i' || (i == i' && (j < j' || (j == j' && k < k')))
  }

  /** (i, j) comes strictly before (i', j') in lexicographic order. */
  predicate LexMenor2(i: int, j: int, i': int, j': int)
  {
    i < i' || (i == i' && j < j')
  }

  /** The search for a triple, resumed at (i, j, k) in the order i < j < k of the nested loops. */
  function BuscaTrio(sqrt: real -> real, d: Drone, a: seq<Pedido>, i: nat, j: nat, k: nat): (r: Option<(nat, nat, nat)>)
    requires i < j < k
    ensures r.Some? ==> TrioValido(sqrt, d, a, r.value.0, r.value.1, r.value.2)
    decreases |a| - i, |a| - j, |a| - k
  {
    if i >= |a| then None
    else if j >= |a| then BuscaTrio(sqrt, d, a, i + 1, i + 2, i + 3)
    else if k >= |a| then BuscaTrio(sqrt, d, a, i, j + 1, j + 2)
    else if RotaValida(sqrt, d, [a[i], a[j], a[k]]) then Some((i, j, k))
    else BuscaTrio(sqrt, d, a, i, j, k + 1)
  }

  /** The search for a pair, resumed at (i, j). */
  function BuscaPar(sqrt: real -> real, d: Drone, a: seq<Pedido>, i: nat, j: nat): (r: Option<(nat, nat)>)
    requires i < j
    ensures r.Some? ==> ParValido(sqrt, d, a, r.value.0, r.value.1)
    decreases |a| - i, |a| - j
  {
    if i >= |a| then None
    else if j >= |a| then BuscaPar(sqrt, d, a, i + 1, i + 2)
    else if RotaValida(sqrt, d, [a[i], a[j]]) then Some((i, j))
    else BuscaPar(sqrt, d, a, i, j + 1)
  }

  /** The search for a single order, resumed at i. */
  function BuscaUm(sqrt: real -> real, d: Drone, a: seq<Pedido>, i: nat): (r: Option<nat>)
    ensures r.Some? ==> UmValido(sqrt, d, a, r.value)
    decreases |a| - i
  {
    if i >= |a| then None
    else if RotaValida(sqrt, d, [a[i]]) then Some(i)
    else BuscaUm(sqrt, d, a, i + 1)
  }

  /** The route the planner picks for drone `d` from the sorted list `a`. */
  function MelhorCombinacao(sqrt: real -> real, d: Drone, a: seq<Pedido>): seq<Pedido>
  {
    match BuscaTrio(sqrt, d, a, 0, 1, 2)
    case Some(t) => [a[t.0], a[t.1], a[t.2]]
    case None =>
      match BuscaPar(sqrt, d, a, 0, 1)
      case Some(t) => [a[t.0], a[t.1]]
      case None =>
        match BuscaUm(sqrt, d, a, 0)
        case Some(i) => [a[i]]
        case None => []
  }

  /** Resumed at (i, j, k), the triple search returns no triple before (i, j, k). */
  lemma {:induction false} BuscaTrioNaoAntes(sqrt: real -> real, d: Drone, a: seq<Pedido>, i: nat, j: nat, k: nat)
    requires i < j < k
    ensures BuscaTrio(sqrt, d, a, i, j, k).Some? ==>
      !LexMenor3(BuscaTrio(sqrt, d, a, i, j, k).value.0, BuscaTrio(sqrt, d, a, i, j, k).value.1,
                 BuscaTrio(sqrt, d, a, i, j, k).value.2, i, j, k)
    decreases |a| - i, |a| - j, |a| - k
  {
    if i >= |a| {
    } else if j >= |a| {
      BuscaTrioNaoAntes(sqrt, d, a, i + 1, i + 2, i + 3);
    } else if k >= |a| {
      BuscaTrioNaoAntes(sqrt, d, a, i, j + 1, j + 2);
    } else if RotaValida(sqrt, d, [a[i], a[j], a[k]]) {
    } else {
      BuscaTrioNaoAntes(sqrt, d, a, i, j, k + 1);
    }
  }

  /**
   * Resumed at (i, j, k), the triple search finds a triple whenever a valid one lies at or
   * after (i, j, k), and no valid triple at or after (i, j, k) precedes the one it returns.
   */
  lemma {:induction false} BuscaTrioPrimeiro(sqrt: real -> real, d: Drone, a: seq<Pedido>, i: nat, j: nat, k: nat)
    requires i < j < k
    ensures forall i', j', k' :: TrioValido(sqrt, d, a, i', j', k') && !LexMenor3(i', j', k', i, j, k) ==>
      && BuscaTrio(sqrt, d, a, i, j, k).Some?
      && !LexMenor3(i', j', k', BuscaTrio(sqrt, d, a, i, j, k).value.0, BuscaTrio(sqrt, d, a, i, j, k).value.1,
                    BuscaTrio(sqrt, d, a, i, j, k).value.2)
    decreases |a| - i, |a| - j, |a| - k
  {
    if i >= |a| {
    } else if j >= |a| {
      BuscaTrioPrimeiro(sqrt, d, a, i + 1, i + 2, i + 3);
      forall i', j', k' | TrioValido(sqrt, d, a, i', j', k') && !LexMenor3(i', j', k', i, j, k)
        ensures !LexMenor3(i', j', k', i + 1, i + 2, i + 3)
      {
      }
    } else if k >= |a| {
      BuscaTrioPrimeiro(sqrt, d, a, i, j + 1, j + 2);
      forall i', j', k' | TrioValido(sqrt, d, a, i', j', k') && !LexMenor3(i', j', k', i, j, k)
        ensures !LexMenor3(i', j', k', i, j + 1, j + 2)
      {
      }
    } else if RotaValida(sqrt, d, [a[i], a[j], a[k]]) {
    } else {
      BuscaTrioPrimeiro(sqrt, d, a, i, j, k + 1);
      forall i', j', k' | TrioValido(sqrt, d, a, i', j', k') && !LexMenor3(i', j', k', i, j, k)
        ensures !LexMenor3(i', j', k', i, j, k + 1)
      {
        assert (i', j', k') != (i, j, k);
      }
    }
  }

  /** Resumed at (i, j), the pair search returns the lexicographically first valid pair not before (i, j). */
  lemma {:induction false} BuscaParPrimeiro(sqrt: real -> real, d: Drone, a: seq<Pedido>, i: nat, j: nat)
    requires i < j
    ensures BuscaPar(sqrt, d, a, i, j).None? ==>
      forall i', j' :: ParValido(sqrt, d, a, i', j') ==> LexMenor2(i', j', i, j)
    ensures BuscaPar(sqrt, d, a, i, j).Some? ==>
      var t := BuscaPar(sqrt, d, a, i, j).value;
      && !LexMenor2(t.0, t.1, i, j)
      && forall i', j' :: ParValido(sqrt, d, a, i', j') && LexMenor2(i', j', t.0, t.1) ==> LexMenor2(i', j', i, j)
    decreases |a| - i, |a| - j
  {
    if i >= |a| {
    } else if j >= |a| {
      BuscaParPrimeiro(sqrt, d, a, i + 1, i + 2);
    } else if RotaValida(sqrt, d, [a[i], a[j]]) {
    } else {
      BuscaParPrimeiro(sqrt, d, a, i, j + 1);
    }
  }

  /** Resumed at i, the single search returns the first valid index not before i. */
  lemma {:induction false} BuscaUmPrimeiro(sqrt: real -> real, d: Drone, a: seq<Pedido>, i: nat)
    ensures BuscaUm(sqrt, d, a, i).None? ==> forall i' :: UmValido(sqrt, d, a, i') ==> i' < i
    ensures BuscaUm(sqrt, d, a, i).Some? ==>
      var t := BuscaUm(sqrt, d, a, i).value;
      i <= t && forall i' :: UmValido(sqrt, d, a, i') && i' < t ==> i' < i
    decreases |a| - i
  {
    if i < |a| && !RotaValida(sqrt, d, [a[i]]) {
      BuscaUmPrimeiro(sqrt, d, a, i + 1);
    }
  }

  /** The planner prefers a triple: it returns one exactly when some triple fits, and then the lexicographically first. */
  lemma MelhorCombinacaoTrio(sqrt: real -> real, d: Drone, a: seq<Pedido>)
    ensures var r := MelhorCombinacao(sqrt, d, a);
      && (|r| == 3 <==> exists i, j, k :: TrioValido(sqrt, d, a, i, j, k))
      && (|r| == 3 ==>
            exists i, j, k ::
              && TrioValido(sqrt, d, a, i, j, k) && r == [a[i], a[j], a[k]]
              && forall i', j', k' :: TrioValido(sqrt, d, a, i', j', k') ==> !LexMenor3(i', j', k', i, j, k))
  {
    BuscaTrioNaoAntes(sqrt, d, a, 0, 1, 2);
    BuscaTrioPrimeiro(sqrt, d, a, 0, 1, 2);
    var r := MelhorCombinacao(sqrt, d, a);
    match BuscaTrio(sqrt, d, a, 0, 1, 2)
    case Some(t) =>
      assert TrioValido(sqrt, d, a, t.0, t.1, t.2) && r == [a[t.0], a[t.1], a[t.2]];
    case None =>
      MelhorCombinacaoAteDois(sqrt, d, a);
  }

  /** Without a triple, the planner returns at most two stops. */
  lemma MelhorCombinacaoAteDois(sqrt: real -> real, d: Drone, a: seq<Pedido>)
    requires BuscaTrio(sqrt, d, a, 0, 1, 2).None?
    ensures |MelhorCombinacao(sqrt, d, a)| <= 2
  {
  }

  /** With no triple that fits, the planner returns a pair exactly when some pair fits, and then the lexicographically first. */
  lemma MelhorCombinacaoPar(sqrt: real -> real, d: Drone, a: seq<Pedido>)
    requires forall i, j, k :: !TrioValido(sqrt, d, a, i, j, k)
    ensures var r := MelhorCombinacao(sqrt, d, a);
      && (|r| == 2 <==> exists i, j :: ParValido(sqrt, d, a, i, j))
      && (|r| == 2 ==>
            exists i, j ::
              && ParValido(sqrt, d, a, i, j) && r == [a[i], a[j]]
              && forall i', j' :: ParValido(sqrt, d, a, i', j') ==> !LexMenor2(i', j', i, j))
  {
    assert BuscaTrio(sqrt, d, a, 0, 1, 2).None?;
    BuscaParPrimeiro(sqrt, d, a, 0, 1);
    var r := MelhorCombinacao(sqrt, d, a);
    match BuscaPar(sqrt, d, a, 0, 1)
    case Some(t) =>
      assert ParValido(sqrt, d, a, t.0, t.1) && r == [a[t.0], a[t.1]];
    case None =>
      assert |r| <= 1;
  }

  /**
   * With no triple and no pair that fits, the planner returns the first single order
   * that fits, or nothing when none does.
   */
  lemma MelhorCombinacaoUm(sqrt: real -> real, d: Drone, a: seq<Pedido>)
    requires forall i, j, k :: !TrioValido(sqrt, d, a, i, j, k)
    requires forall i, j :: !ParValido(sqrt, d, a, i, j)
    ensures var r := MelhorCombinacao(sqrt, d, a);
      && (|r| == 1 <==> exists i :: UmValido(sqrt, d, a, i))
      && (|r| == 1 ==>
            exists i :: UmValido(sqrt, d, a, i) && r == [a[i]] && forall i' :: UmValido(sqrt, d, a, i') ==> i <= i')
      && (r == [] <==> forall i :: !UmValido(sqrt, d, a, i))
  {
    assert BuscaTrio(sqrt, d, a, 0, 1, 2).None?;
    assert BuscaPar(sqrt, d, a, 0, 1).None?;
    BuscaUmPrimeiro(sqrt, d, a, 0);
    var r := MelhorCombinacao(sqrt, d, a);
    match BuscaUm(sqrt, d, a, 0)
    case Some(t) =>
      assert UmValido(sqrt, d, a, t) && r == [a[t]];
    case None =>
  }

  /** A chosen route has at most three stops, fits the drone, and takes distinct orders of `a` in list order. */
  lemma MelhorCombinacaoValida(sqrt: real -> real, d: Drone, a: seq<Pedido>)
    ensures var r := MelhorCombinacao(sqrt, d, a);
      && |r| <= 3
      && (r != [] ==> RotaValida(sqrt, d, r))
      && (forall p :: p in r ==> p in a)
      && (SemRepeticao(a) ==> SemRepeticao(r))
  {
  }

  // ---------------------------------------------------------------------------
  // Allocation over the fleet
  // ---------------------------------------------------------------------------

  predicate SemRepeticao(s: seq<Pedido>)
  {
    forall i, j :: 0 <= i < j < |s| ==> s[i] != s[j]
  }

  /** The elements of `s` that are not in `fora`, in their order in `s` (Java's `removeAll`). */
  function Excluindo(s: seq<Pedido>, fora: seq<Pedido>): seq<Pedido>
  {
    if s == [] then []
    else if s[|s| - 1] in fora then Excluindo(s[..|s| - 1], fora)
    else Excluindo(s[..|s| - 1], fora) + [s[|s| - 1]]
  }

  /** `removeAll` keeps exactly the orders outside `fora`, and creates no repetition. */
  lemma {:induction false} ExcluindoMembros(s: seq<Pedido>, fora: seq<Pedido>)
    ensures forall p :: p in Excluindo(s, fora) <==> p in s && p !in fora
    ensures SemRepeticao(s) ==> SemRepeticao(Excluindo(s, fora))
  {
    if s != [] {
      var ini := s[..|s| - 1];
      ExcluindoMembros(ini, fora);
      assert s == ini + [s[|s| - 1]];
      if SemRepeticao(s) {
        assert SemRepeticao(ini);
        assert s[|s| - 1] !in ini;
      }
    }
  }

  lemma {:induction false} ExcluindoVazio(s: seq<Pedido>)
    ensures Excluindo(s, []) == s
  {
    if s != [] {
      ExcluindoVazio(s[..|s| - 1]);
    }
  }

  /** Removing `a` and then `b` is removing `a + b`. */
  lemma {:induction false} ExcluindoDuas(s: seq<Pedido>, a: seq<Pedido>, b: seq<Pedido>)
    ensures Excluindo(Excluindo(s, a), b) == Excluindo(s, a + b)
  {
    if s != [] {
      var ini := s[..|s| - 1];
      ExcluindoDuas(ini, a, b);
      if s[|s| - 1] !in a {
        var e := Excluindo(ini, a) + [s[|s| - 1]];
        assert e[..|e| - 1] == Excluindo(ini, a);
      }
    }
  }

  /** The orders of the first n routes, route after route. */
  function Atribuidos(rotas: seq<seq<Pedido>>, n: nat): seq<Pedido>
    requires n <= |rotas|
  {
    if n == 0 then [] else Atribuidos(rotas, n - 1) + rotas[n - 1]
  }

  /** Putting one route in front adds its orders in front. */
  lemma {:induction false} AtribuidosConcat(rota: seq<Pedido>, rotas: seq<seq<Pedido>>, n: nat)
    requires n <= |rotas|
    ensures Atribuidos([rota] + rotas, n + 1) == rota + Atribuidos(rotas, n)
  {
    if n > 0 {
      AtribuidosConcat(rota, rotas, n - 1);
      assert ([rota] + rotas)[n] == rotas[n - 1];
    }
  }

  /** An order is among the first n routes' orders exactly when one of those routes holds it. */
  lemma {:induction false} AtribuidosMembro(rotas: seq<seq<Pedido>>, n: nat, p: Pedido)
    requires n <= |rotas|
    ensures p in Atribuidos(rotas, n) <==> exists k :: 0 <= k < n && p in rotas[k]
  {
    if n > 0 {
      AtribuidosMembro(rotas, n - 1, p);
    }
  }

  /** Every order of the first n routes is among their orders. */
  lemma AtribuidosPrefixo(rotas: seq<seq<Pedido>>, n: nat)
    requires n <= |rotas|
    ensures forall j, p :: 0 <= j < n && p in rotas[j] ==> p in Atribuidos(rotas, n)
  {
    forall j, p | 0 <= j < n && p in rotas[j] ensures p in Atribuidos(rotas, n) {
      AtribuidosMembro(rotas, n, p);
    }
  }

  /** The order-to-drone map of the first n routes: each order of route k maps to drone k. */
  function DonoDe(frota: seq<Drone>, rotas: seq<seq<Pedido>>, n: nat): map<Pedido, Drone>
    requires n <= |frota| == |rotas|
  {
    if n == 0 then map[]
    else
      var rota, d := rotas[n - 1], frota[n - 1];
      DonoDe(frota, rotas, n - 1) + (map p | p in rota :: d)
  }

  /**
   * The map holds exactly the allocated orders, and when the routes are pairwise
   * disjoint each order maps to the drone whose route holds it.
   */
  lemma {:induction false} DonoDeCorreto(frota: seq<Drone>, rotas: seq<seq<Pedido>>, n: nat)
    requires n <= |frota| == |rotas|
    ensures forall p :: p in DonoDe(frota, rotas, n) <==> p in Atribuidos(rotas, n)
    ensures (forall k1, k2, p :: 0 <= k1 < k2 < n && p in rotas[k1] ==> p !in rotas[k2]) ==>
      forall k, p :: 0 <= k < n && p in rotas[k] ==> p in DonoDe(frota, rotas, n) && DonoDe(frota, rotas, n)[p] == frota[k]
  {
    if n > 0 {
      DonoDeCorreto(frota, rotas, n - 1);
    }
  }

  datatype Alocacao = Alocacao(rotas: seq<seq<Pedido>>, restantes: seq<Pedido>)

  /**
   * The planner's allocation: drones take their turn in fleet order, each choosing its
   * first-fit route from what earlier drones left; `restantes` is what nobody took.
   */
  function Alocar(sqrt: real -> real, frota: seq<Drone>, pendentes: seq<Pedido>): (r: Alocacao)
    ensures |r.rotas| == |frota|
    decreases |frota|
  {
    if frota == [] then Alocacao([], pendentes)
    else
      var rota := MelhorCombinacao(sqrt, frota[0], pendentes);
      var resto := Alocar(sqrt, frota[1..], Excluindo(pendentes, rota));
      Alocacao([rota] + resto.rotas, resto.restantes)
  }

  /** Route n - 1 is drone n - 1's first-fit choice from the pending list without routes 0..n-2. */
  ghost predicate EscolheuPrimeiroAjuste(sqrt: real -> real, frota: seq<Drone>, pendentes: seq<Pedido>, rotas: seq<seq<Pedido>>, k: nat)
    requires k < |frota| && k < |rotas|
  {
    rotas[k] == MelhorCombinacao(sqrt, frota[k], Excluindo(pendentes, Atribuidos(rotas, k)))
  }

  /** Routes 0..n-1 are the planner's choices, each drone's first fit from what the routes before it left. */
  ghost predicate EscolhasAte(sqrt: real -> real, frota: seq<Drone>, pendentes: seq<Pedido>, rotas: seq<seq<Pedido>>, n: nat)
    requires n <= |frota| && n <= |rotas|
  {
    n == 0 || (EscolhasAte(sqrt, frota, pendentes, rotas, n - 1) && EscolheuPrimeiroAjuste(sqrt, frota, pendentes, rotas, n - 1))
  }

  /** `rotas` are the routes the planner chooses: one per drone, each its first-fit choice. */
  ghost predicate EscolhasPrimeiroAjuste(sqrt: real -> real, frota: seq<Drone>, pendentes: seq<Pedido>, rotas: seq<seq<Pedido>>)
  {
    |rotas| == |frota| && EscolhasAte(sqrt, frota, pendentes, rotas, |frota|)
  }

  /** The choices up to n fix every route before n. */
  lemma {:induction false} EscolhaDe(sqrt: real -> real, frota: seq<Drone>, pendentes: seq<Pedido>, rotas: seq<seq<Pedido>>, n: nat, k: nat)
    requires n <= |frota| && n <= |rotas| && EscolhasAte(sqrt, frota, pendentes, rotas, n) && k < n
    ensures rotas[k] == MelhorCombinacao(sqrt, frota[k], Excluindo(pendentes, Atribuidos(rotas, k)))
  {
    if k < n - 1 {
      EscolhaDe(sqrt, frota, pendentes, rotas, n - 1, k);
    }
  }

  /** Routes that are each drone's first fit are the choices up to n. */
  lemma {:induction false} EscolhasDeTodas(sqrt: real -> real, frota: seq<Drone>, pendentes: seq<Pedido>, rotas: seq<seq<Pedido>>, n: nat)
    requires n <= |frota| && n <= |rotas|
    requires forall k :: 0 <= k < n ==> EscolheuPrimeiroAjuste(sqrt, frota, pendentes, rotas, k)
    ensures EscolhasAte(sqrt, frota, pendentes, rotas, n)
  {
    if n > 0 {
      EscolhasDeTodas(sqrt, frota, pendentes, rotas, n - 1);
    }
  }

  /**
   * The allocation in closed form: drone k searches the pending list without the orders
   * of drones 0..k-1, and what remains is the pending list without every allocated order.
   */
  lemma {:induction false} AlocarFormaFechada(sqrt: real -> real, frota: seq<Drone>, pendentes: seq<Pedido>)
    ensures var A := Alocar(sqrt, frota, pendentes);
      && EscolhasPrimeiroAjuste(sqrt, frota, pendentes, A.rotas)
      && A.restantes == Excluindo(pendentes, Atribuidos(A.rotas, |frota|))
    decreases |frota|
  {
    var A := Alocar(sqrt, frota, pendentes);
    if frota == [] {
      ExcluindoVazio(pendentes);
    } else {
      var rota := MelhorCombinacao(sqrt, frota[0], pendentes);
      var p1 := Excluindo(pendentes, rota);
      var B := Alocar(sqrt, frota[1..], p1);
      AlocarFormaFechada(sqrt, frota[1..], p1);
      assert A.rotas == [rota] + B.rotas;
      forall k | 0 <= k < |frota|
        ensures EscolheuPrimeiroAjuste(sqrt, frota, pendentes, A.rotas, k)
      {
        if k == 0 {
          ExcluindoVazio(pendentes);
        } else {
          EscolhaDe(sqrt, frota[1..], p1, B.rotas, |B.rotas|, k - 1);
          AtribuidosConcat(rota, B.rotas, k - 1);
          ExcluindoDuas(pendentes, rota, Atribuidos(B.rotas, k - 1));
          assert frota[k] == frota[1..][k - 1] && A.rotas[k] == B.rotas[k - 1];
        }
      }
      EscolhasDeTodas(sqrt, frota, pendentes, A.rotas, |frota|);
      AtribuidosConcat(rota, B.rotas, |B.rotas|);
      ExcluindoDuas(pendentes, rota, Atribuidos(B.rotas, |B.rotas|));
    }
  }

  /** Each chosen route is drawn from what the routes before it left. */
  lemma EscolhaContida(sqrt: real -> real, frota: seq<Drone>, pendentes: seq<Pedido>, rotas: seq<seq<Pedido>>, k: nat)
    requires EscolhasPrimeiroAjuste(sqrt, frota, pendentes, rotas) && k < |frota|
    ensures forall p :: p in rotas[k] ==> p in pendentes && p !in Atribuidos(rotas, k)
  {
    EscolhaDe(sqrt, frota, pendentes, rotas, |frota|, k);
    MelhorCombinacaoValida(sqrt, frota[k], Excluindo(pendentes, Atribuidos(rotas, k)));
    ExcluindoMembros(pendentes, Atribuidos(rotas, k));
  }

  /** Drone k's route is its first-fit choice from what drones 0..k-1 left. */
  lemma AlocarEscolha(sqrt: real -> real, frota: seq<Drone>, pendentes: seq<Pedido>, k: nat)
    requires k < |frota|
    ensures var A := Alocar(sqrt, frota, pendentes);
      A.rotas[k] == MelhorCombinacao(sqrt, frota[k], Excluindo(pendentes, Atribuidos(A.rotas, k)))
  {
    AlocarFormaFechada(sqrt, frota, pendentes);
    EscolhaDe(sqrt, frota, pendentes, Alocar(sqrt, frota, pendentes).rotas, |frota|, k);
  }

  /**
   * What the plan guarantees: routes of at most three stops that fit their drones,
   * drawn from the pending orders, pairwise disjoint, and together with the leftover
   * orders a partition of the pending list.
   */
  lemma AlocarGarantias(sqrt: real -> real, frota: seq<Drone>, pendentes: seq<Pedido>)
    ensures var A := Alocar(sqrt, frota, pendentes);
      && (forall k :: 0 <= k < |frota| ==>
            && |A.rotas[k]| <= 3
            && (A.rotas[k] != [] ==> RotaValida(sqrt, frota[k], A.rotas[k]))
            && (SemRepeticao(pendentes) ==> SemRepeticao(A.rotas[k])))
      && (forall k, p :: 0 <= k < |frota| && p in A.rotas[k] ==> p in pendentes)
      && (forall k1, k2, p :: 0 <= k1 < k2 < |frota| && p in A.rotas[k1] ==> p !in A.rotas[k2])
      && (forall p :: p in A.restantes <==> p in pendentes && p !in Atribuidos(A.rotas, |frota|))
      && (forall p :: p in Atribuidos(A.rotas, |frota|) ==> p in pendentes)
      && (SemRepeticao(pendentes) ==> SemRepeticao(A.restantes))
  {
    var A := Alocar(sqrt, frota, pendentes);
    AlocarFormaFechada(sqrt, frota, pendentes);
    ExcluindoMembros(pendentes, Atribuidos(A.rotas, |frota|));
    forall k | 0 <= k < |frota|
      ensures |A.rotas[k]| <= 3
      ensures A.rotas[k] != [] ==> RotaValida(sqrt, frota[k], A.rotas[k])
      ensures SemRepeticao(pendentes) ==> SemRepeticao(A.rotas[k])
      ensures forall p :: p in A.rotas[k] ==> p in pendentes && p !in Atribuidos(A.rotas, k)
    {
      EscolhaContida(sqrt, frota, pendentes, A.rotas, k);
      EscolhaDe(sqrt, frota, pendentes, A.rotas, |frota|, k);
      MelhorCombinacaoValida(sqrt, frota[k], Excluindo(pendentes, Atribuidos(A.rotas, k)));
      ExcluindoMembros(pendentes, Atribuidos(A.rotas, k));
    }
    AlocarDisjuntas(sqrt, frota, pendentes);
    forall p | p in Atribuidos(A.rotas, |frota|) ensures p in pendentes {
      AtribuidosMembro(A.rotas, |frota|, p);
    }
  }

  /** No order sits on two of the routes. */
  predicate Disjuntas(rotas: seq<seq<Pedido>>)
  {
    forall k1, k2, p :: 0 <= k1 < k2 < |rotas| && p in rotas[k1] ==> p !in rotas[k2]
  }

  /** No order is allocated to two drones. */
  lemma AlocarDisjuntas(sqrt: real -> real, frota: seq<Drone>, pendentes: seq<Pedido>)
    ensures Disjuntas(Alocar(sqrt, frota, pendentes).rotas)
  {
    var A := Alocar(sqrt, frota, pendentes);
    AlocarFormaFechada(sqrt, frota, pendentes);
    forall k1, k2, p | 0 <= k1 < k2 < |frota| && p in A.rotas[k1] ensures p !in A.rotas[k2] {
      AtribuidosPrefixo(A.rotas, k2);
      EscolhaContida(sqrt, frota, pendentes, A.rotas, k2);
    }
  }

  /** With pairwise disjoint routes, every order of a route belongs to that route's drone. */
  lemma DonoDeDisjuntas(frota: seq<Drone>, rotas: seq<seq<Pedido>>)
    requires |frota| == |rotas| && Disjuntas(rotas)
    ensures forall p :: p in DonoDe(frota, rotas, |frota|) <==> p in Atribuidos(rotas, |frota|)
    ensures forall k, p :: 0 <= k < |frota| && p in rotas[k] ==> p in DonoDe(frota, rotas, |frota|) && DonoDe(frota, rotas, |frota|)[p] == frota[k]
  {
    DonoDeCorreto(frota, rotas, |frota|);
  }

  /** The order-to-drone map built from the allocation sends each allocated order to its drone. */
  lemma AlocarDono(sqrt: real -> real, frota: seq<Drone>, pendentes: seq<Pedido>)
    ensures var A := Alocar(sqrt, frota, pendentes);
      var dono := DonoDe(frota, A.rotas, |frota|);
      && (forall p :: p in dono <==> p in Atribuidos(A.rotas, |frota|))
      && (forall k, p :: 0 <= k < |frota| && p in A.rotas[k] ==> p in dono && dono[p] == frota[k])
  {
    var A := Alocar(sqrt, frota, pendentes);
    AlocarDisjuntas(sqrt, frota, pendentes);
    DonoDeDisjuntas(frota, A.rotas);
  }

}
