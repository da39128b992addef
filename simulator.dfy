/**
 * The two simulations of a plan. The technical one replays each drone's route leg by
 * leg and reports deliveries, consumption and recharges; the stepped one moves every
 * drone one unit per step until none is active. Each is a method proved to do what a
 * pure replay in this module defines, and the replays' properties are lemmas.
 */
module Simulator {
  import opened Enums
  import opened Options
  import opened GeoUtils
  import opened Model
  import opened Planning
  import opened Service

  /** At or below this charge a drone must recharge. */
  const LIMITE_RECARGA: real := 20.0

  // ---------------------------------------------------------------------------
  // The technical simulation: one route, replayed leg by leg
  // ---------------------------------------------------------------------------

  /**
   * The replay of one route so far: the drone's charge and status, the consumption and
   * distance counted, the recharges, the point reached and the load still carried.
   */
  datatype Voo = Voo(bateria: real, status: StatusDrone, consumo: real, tempo: real, recargas: nat,
                     x: real, y: real, carga: real)

  /** Full, loading, at the base, carrying the whole route. */
  function Partida(rota: seq<Pedido>): Voo
  {
    Voo(100.0, CARREGANDO, 0.0, 0.0, 0, 0.0, 0.0, PesoTotal(rota))
  }

  /** The charge a flight of `dist` km costs carrying `carga` kg: 0.5 per km plus 0.1 per km and kg. */
  function Custo(dist: real, carga: real): real
  {
    dist * (0.5 + carga * 0.1)
  }

  /** What the leg to `p` costs. */
  function GastoTrecho(sqrt: real -> real, v: Voo, p: Pedido): real
  {
    Custo(DistanciaKm(sqrt, v.x, v.y, p.x, p.y), v.carga)
  }

  /**
   * The leg to `p`: the charge drops by its cost; if that leaves the drone at or below
   * the limit it flies home and recharges (the flight home is neither counted nor
   * tracked); then `p` is delivered and its weight leaves the load.
   */
  function Trecho(sqrt: real -> real, v: Voo, p: Pedido): Voo
  {
    var dist := DistanciaKm(sqrt, v.x, v.y, p.x, p.y);
    var gasto := GastoTrecho(sqrt, v, p);
    var b := AposConsumo(v.bateria, gasto);
    if b <= LIMITE_RECARGA then
      Voo(100.0, IDLE, v.consumo + gasto, v.tempo + dist, v.recargas + 1, p.x, p.y, v.carga - p.pesoKg)
    else
      Voo(b, v.status, v.consumo + gasto, v.tempo + dist, v.recargas, p.x, p.y, v.carga - p.pesoKg)
  }

  /** The legs of `rota`, in order, from `v`. */
  function Trechos(sqrt: real -> real, v: Voo, rota: seq<Pedido>): Voo
  {
    if rota == [] then v else Trecho(sqrt, Trechos(sqrt, v, rota[..|rota| - 1]), rota[|rota| - 1])
  }

  /** The flight home from the last stop, at 0.5 per km. */
  function GastoRegresso(sqrt: real -> real, v: Voo): real
  {
    DistanciaKm(sqrt, v.x, v.y, 0.0, 0.0) * 0.5
  }

  /** The flight home leaves the drone at or below the limit, so it ends with a recharge. */
  predicate RecargaFinal(sqrt: real -> real, v: Voo)
  {
    AposConsumo(v.bateria, GastoRegresso(sqrt, v)) <= LIMITE_RECARGA
  }

  /** The flight home, then a recharge if needed; the drone ends IDLE. */
  function Regresso(sqrt: real -> real, v: Voo): Voo
  {
    var dist := DistanciaKm(sqrt, v.x, v.y, 0.0, 0.0);
    var gasto := GastoRegresso(sqrt, v);
    if RecargaFinal(sqrt, v) then
      Voo(100.0, IDLE, v.consumo + gasto, v.tempo + dist, v.recargas + 1, v.x, v.y, v.carga)
    else
      Voo(AposConsumo(v.bateria, gasto), IDLE, v.consumo + gasto, v.tempo + dist, v.recargas, v.x, v.y, v.carga)
  }

  /** The whole replay of a route: every leg, then the flight home. */
  function Simulacao(sqrt: real -> real, rota: seq<Pedido>): Voo
  {
    Regresso(sqrt, Trechos(sqrt, Partida(rota), rota))
  }

  /**
   * The drone `e0` after the replay of `rota`: IDLE with no order; at the base with the
   * charge left, or, when it ended with a recharge, full and where it stood before (the
   * replay never moves the drone itself).
   */
  function EstadoSimulado(sqrt: real -> real, e0: EstadoDrone, rota: seq<Pedido>): (e: EstadoDrone)
    ensures e.status == IDLE && e.pedido == null
    ensures e.bateria == Simulacao(sqrt, rota).bateria
  {
    var v := Trechos(sqrt, Partida(rota), rota);
    if RecargaFinal(sqrt, v) then EstadoDrone(e0.posX, e0.posY, 100.0, IDLE, null)
    else EstadoDrone(0.0, 0.0, Simulacao(sqrt, rota).bateria, IDLE, null)
  }

  // ---------------------------------------------------------------------------
  // Properties of the replay
  // ---------------------------------------------------------------------------

  /** From the base, the legs cover the outbound path and end at the route's last stop. */
  lemma {:induction false} TrechosPercorrem(sqrt: real -> real, v: Voo, rota: seq<Pedido>)
    requires v.x == 0.0 && v.y == 0.0
    ensures Trechos(sqrt, v, rota).tempo == v.tempo + Percurso(sqrt, rota)
    ensures (Trechos(sqrt, v, rota).x, Trechos(sqrt, v, rota).y) == Fim(rota)
  {
    if rota != [] {
      TrechosPercorrem(sqrt, v, rota[..|rota| - 1]);
    }
  }

  /** The distance the replay counts is the planner's round trip of the route. */
  lemma SimulacaoPercorreRota(sqrt: real -> real, rota: seq<Pedido>)
    ensures Simulacao(sqrt, rota).tempo == DistanciaRota(sqrt, rota)
  {
    TrechosPercorrem(sqrt, Partida(rota), rota);
  }

  /** Each delivery drops its order's weight from the load. */
  lemma {:induction false} TrechosDescarregam(sqrt: real -> real, v: Voo, rota: seq<Pedido>)
    ensures Trechos(sqrt, v, rota).carga == v.carga - PesoTotal(rota)
  {
    if rota != [] {
      TrechosDescarregam(sqrt, v, rota[..|rota| - 1]);
    }
  }

  /** The drone comes home empty. */
  lemma SimulacaoDescarrega(sqrt: real -> real, rota: seq<Pedido>)
    ensures Simulacao(sqrt, rota).carga == 0.0
  {
    TrechosDescarregam(sqrt, Partida(rota), rota);
  }

  /** At most one recharge per leg and one at the end. */
  lemma {:induction false} TrechosRecargas(sqrt: real -> real, v: Voo, rota: seq<Pedido>)
    ensures v.recargas <= Trechos(sqrt, v, rota).recargas <= v.recargas + |rota|
  {
    if rota != [] {
      TrechosRecargas(sqrt, v, rota[..|rota| - 1]);
    }
  }

  lemma SimulacaoRecargas(sqrt: real -> real, rota: seq<Pedido>)
    ensures Simulacao(sqrt, rota).recargas <= |rota| + 1
  {
    TrechosRecargas(sqrt, Partida(rota), rota);
  }

  /** Distances are never negative when the square root is not. */
  lemma DistanciaNaoNegativa(sqrt: real -> real, x1: real, y1: real, x2: real, y2: real)
    requires RaizNaoNegativa(sqrt)
    ensures 0.0 <= DistanciaKm(sqrt, x1, y1, x2, y2)
  {
    var dx := x2 - x1;
    var dy := y2 - y1;
    assert 0.0 <= dx * dx + dy * dy;
  }

  /** A leg of `dist` km carrying `carga` costs between 0.5 and 0.5 + 0.1 * `limite` per km. */
  lemma GastoEntre(dist: real, carga: real, limite: real)
    requires 0.0 <= dist && 0.0 <= carga <= limite
    ensures 0.5 * dist <= dist * (0.5 + carga * 0.1) <= (0.5 + 0.1 * limite) * dist
  {
    assert dist * (0.5 + carga * 0.1) == 0.5 * dist + 0.1 * (dist * carga);
    assert (0.5 + 0.1 * limite) * dist == 0.5 * dist + 0.1 * (dist * limite);
    assert 0.0 <= dist * carga <= dist * limite;
  }

  /** A leg carrying no more than `limite` costs between 0.5 and 0.5 + 0.1 * `limite` per km. */
  lemma GastoTrechoEntre(sqrt: real -> real, u: Voo, p: Pedido, limite: real)
    requires RaizNaoNegativa(sqrt)
    requires 0.0 <= u.carga <= limite
    ensures var dist := DistanciaKm(sqrt, u.x, u.y, p.x, p.y);
      0.0 <= dist && 0.5 * dist <= GastoTrecho(sqrt, u, p) <= (0.5 + 0.1 * limite) * dist
  {
    DistanciaNaoNegativa(sqrt, u.x, u.y, p.x, p.y);
    GastoEntre(DistanciaKm(sqrt, u.x, u.y, p.x, p.y), u.carga, limite);
  }

  /** Before the last leg of a route of non-negative weights, the load is that leg's order and more. */
  lemma CargaAntesDoUltimo(sqrt: real -> real, v: Voo, rota: seq<Pedido>)
    requires rota != []
    requires forall p :: p in rota ==> 0.0 <= p.pesoKg
    requires PesoTotal(rota) <= v.carga
    ensures PesoTotal(rota[..|rota| - 1]) <= v.carga
    ensures 0.0 <= Trechos(sqrt, v, rota[..|rota| - 1]).carga <= v.carga
  {
    var ini := rota[..|rota| - 1];
    TrechosDescarregam(sqrt, v, ini);
    assert 0.0 <= rota[|rota| - 1].pesoKg;
    assert forall q :: q in ini ==> q in rota;
    PesoNaoNegativo(ini);
  }

  /** Adding a leg of `d` km that costs at least `lo` per km keeps a consumption of at least `lo` per km. */
  lemma SomaPorKm(c0: real, c1: real, c2: real, t0: real, t1: real, t2: real, d: real, lo: real)
    requires c0 + lo * (t1 - t0) <= c1
    requires t2 == t1 + d && c1 + lo * d <= c2
    ensures c0 + lo * (t2 - t0) <= c2
  {
    assert lo * (t2 - t0) == lo * (t1 - t0) + lo * d;
  }

  /**
   * With a real square root and no negative weights, a leg never raises the charge and
   * after it the charge is above the limit.
   */
  lemma {:induction false} TrechosBateria(sqrt: real -> real, v: Voo, rota: seq<Pedido>)
    requires RaizNaoNegativa(sqrt)
    requires forall p :: p in rota ==> 0.0 <= p.pesoKg
    requires PesoTotal(rota) <= v.carga
    requires 0.0 <= v.bateria <= 100.0
    ensures 0.0 <= Trechos(sqrt, v, rota).bateria <= 100.0
    ensures rota != [] ==> LIMITE_RECARGA < Trechos(sqrt, v, rota).bateria
  {
    if rota != [] {
      var ini := rota[..|rota| - 1];
      assert forall q :: q in ini ==> q in rota;
      CargaAntesDoUltimo(sqrt, v, rota);
      TrechosBateria(sqrt, v, ini);
      GastoTrechoEntre(sqrt, Trechos(sqrt, v, ini), rota[|rota| - 1], v.carga);
    }
  }

  /** With non-negative distances and weights, the legs cost at least 0.5 per km flown. */
  lemma {:induction false} TrechosConsumo(sqrt: real -> real, v: Voo, rota: seq<Pedido>)
    requires RaizNaoNegativa(sqrt)
    requires forall p :: p in rota ==> 0.0 <= p.pesoKg
    requires PesoTotal(rota) <= v.carga
    ensures v.consumo + 0.5 * (Trechos(sqrt, v, rota).tempo - v.tempo) <= Trechos(sqrt, v, rota).consumo
  {
    if rota != [] {
      var ini := rota[..|rota| - 1];
      assert forall q :: q in ini ==> q in rota;
      CargaAntesDoUltimo(sqrt, v, rota);
      TrechosConsumo(sqrt, v, ini);
      var u, p := Trechos(sqrt, v, ini), rota[|rota| - 1];
      GastoTrechoEntre(sqrt, u, p, v.carga);
      var w := Trechos(sqrt, v, rota);
      var dist := DistanciaKm(sqrt, u.x, u.y, p.x, p.y);
      assert w.consumo == u.consumo + GastoTrecho(sqrt, u, p) && w.tempo == u.tempo + dist;
      SomaPorKm(v.consumo, u.consumo, w.consumo, v.tempo, u.tempo, w.tempo, dist, 0.5);
    }
  }

  /**
   * With a real square root and no negative weights the replay ends above the limit and
   * never above a full charge, and the consumption it reports is at least 0.5 per km of
   * the route's round trip.
   */
  lemma SimulacaoLimitada(sqrt: real -> real, rota: seq<Pedido>)
    requires IsSqrt(sqrt)
    requires forall p :: p in rota ==> 0.0 <= p.pesoKg
    ensures LIMITE_RECARGA < Simulacao(sqrt, rota).bateria <= 100.0
    ensures 0.5 * DistanciaRota(sqrt, rota) <= Simulacao(sqrt, rota).consumo
  {
    var v := Partida(rota);
    assert RaizNaoNegativa(sqrt);
    TrechosBateria(sqrt, v, rota);
    TrechosConsumo(sqrt, v, rota);
    SimulacaoPercorreRota(sqrt, rota);
    TrechosPercorrem(sqrt, v, rota);
    var w := Trechos(sqrt, v, rota);
    PesoNaoNegativo(rota);
    DistanciaNaoNegativa(sqrt, w.x, w.y, 0.0, 0.0);
  }

  /** A route of non-negative weights weighs nothing below zero. */
  lemma {:induction false} PesoNaoNegativo(rota: seq<Pedido>)
    requires forall p :: p in rota ==> 0.0 <= p.pesoKg
    ensures 0.0 <= PesoTotal(rota)
  {
    if rota != [] {
      assert forall q :: q in rota[..|rota| - 1] ==> q in rota;
      PesoNaoNegativo(rota[..|rota| - 1]);
    }
  }

  // ---------------------------------------------------------------------------
  // The technical simulation as run: each route on its drone, then the report
  // ---------------------------------------------------------------------------

  /** Delivers `p`; every other order keeps its status. */
  method Entregar(p: Pedido, ghost ps: seq<Pedido>)
    modifies p
    ensures Estados(ps) == Marcados(ps, old(Estados(ps)), [p], ENTREGUE)
  {
    EstadosIndice(ps);
    ghost var s0 := Estados(ps);
    p.SetStatus(ENTREGUE);
    EstadosIndice(ps);
    forall i | 0 <= i < |ps|
      ensures Estados(ps)[i] == Marcados(ps, s0, [p], ENTREGUE)[i]
    {
      assert s0[i] == old(ps[i].status);
    }
  }

  /**
   * The leg to `p` on drone `d`, from (`atualX`, `atualY`) carrying `carga`: the charge
   * drops by the leg's cost and, at or below the limit, the drone flies home and
   * recharges. The counters and the drone end as `Trecho` says.
   */
  method VoarTrecho(sqrt: real -> real, d: Drone, p: Pedido, consumo: real, tempo: real, recargas: nat,
                    atualX: real, atualY: real, carga: real)
    returns (consumo': real, tempo': real, recargas': nat)
    requires d.currentPedido == null
    modifies d
    ensures Voo(d.bateriaPercent, d.status, consumo', tempo', recargas', p.x, p.y, carga - p.pesoKg)
            == Trecho(sqrt, Voo(old(d.bateriaPercent), old(d.status), consumo, tempo, recargas, atualX, atualY, carga), p)
    ensures d.posX == old(d.posX) && d.posY == old(d.posY) && d.currentPedido == null
  {
    var distanciaTrecho := DistanciaKm(sqrt, atualX, atualY, p.x, p.y);
    var consumoTrecho := Custo(distanciaTrecho, carga);
    d.ConsumirBateria(consumoTrecho);
    consumo' := consumo + consumoTrecho;
    tempo' := tempo + distanciaTrecho;
    recargas' := recargas;
    if d.bateriaPercent <= LIMITE_RECARGA {
      // Home to recharge; the replay goes on from the stop just reached.
      var distRetorno := DistanciaKm(sqrt, p.x, p.y, 0.0, 0.0);
      d.ConsumirBateria(Custo(distRetorno, carga));
      d.Recarregar();
      recargas' := recargas' + 1;
    }
  }

  /**
   * The flight home from (`atualX`, `atualY`) at 0.5 per km, then a recharge where it
   * stands if that left the drone at or below the limit, or else a move to the base.
   * The counters end as `Regresso` says; the drone ends IDLE.
   */
  method VoarRegresso(sqrt: real -> real, d: Drone, consumo: real, tempo: real, recargas: nat,
                      atualX: real, atualY: real, carga: real)
    returns (consumo': real, tempo': real, recargas': nat)
    requires d.currentPedido == null
    modifies d
    ensures var v := Voo(old(d.bateriaPercent), old(d.status), consumo, tempo, recargas, atualX, atualY, carga);
      && consumo' == Regresso(sqrt, v).consumo && tempo' == Regresso(sqrt, v).tempo
      && recargas' == Regresso(sqrt, v).recargas
      && EstadoDe(d) == if RecargaFinal(sqrt, v) then EstadoDrone(old(d.posX), old(d.posY), 100.0, IDLE, null)
                        else EstadoDrone(0.0, 0.0, Regresso(sqrt, v).bateria, IDLE, null)
  {
    var distanciaBase := DistanciaKm(sqrt, atualX, atualY, 0.0, 0.0);
    var consumoBase := distanciaBase * 0.5;
    d.ConsumirBateria(consumoBase);
    consumo' := consumo + consumoBase;
    tempo' := tempo + distanciaBase;
    recargas' := recargas;
    if d.bateriaPercent <= LIMITE_RECARGA {
      d.Recarregar();
      recargas' := recargas' + 1;
    } else {
      d.RecarregarPosicao();
      d.SetStatus(IDLE);
    }
  }

  /**
   * Flies `rota` with drone `d`: recharged and loading at the start, then leg after leg
   * as `Trecho` says, each order delivered in turn, then home as `Regresso` says. Returns
   * the consumption, recharges, distance and deliveries of the replay; the drone ends as
   * `EstadoSimulado` says and exactly the route's orders become ENTREGUE.
   */
  method SimularRota(sqrt: real -> real, d: Drone, rota: seq<Pedido>, ghost ps: seq<Pedido>)
    returns (consumo: real, recargas: nat, tempo: real, entregas: nat)
    modifies d, rota
    ensures consumo == Simulacao(sqrt, rota).consumo && recargas == Simulacao(sqrt, rota).recargas
    ensures tempo == Simulacao(sqrt, rota).tempo && entregas == |rota|
    ensures EstadoDe(d) == EstadoSimulado(sqrt, old(EstadoDe(d)), rota)
    ensures Estados(ps) == Marcados(ps, old(Estados(ps)), rota, ENTREGUE)
  {
    d.Recarregar();
    d.SetStatus(CARREGANDO);
    consumo, recargas, tempo, entregas := 0.0, 0, 0.0, 0;
    var atualX, atualY := 0.0, 0.0;
    var carga := PesoTotal(rota);
    MarcadosVazio(ps, Estados(ps), ENTREGUE);
    var i := 0;
    while i < |rota|
      invariant 0 <= i <= |rota| && entregas == i
      invariant Voo(d.bateriaPercent, d.status, consumo, tempo, recargas, atualX, atualY, carga)
                == Trechos(sqrt, Partida(rota), rota[..i])
      invariant d.posX == old(d.posX) && d.posY == old(d.posY) && d.currentPedido == null
      invariant Estados(ps) == Marcados(ps, old(Estados(ps)), rota[..i], ENTREGUE)
    {
      var p := rota[i];
      assert rota[..i + 1] == rota[..i] + [p];
      assert Trechos(sqrt, Partida(rota), rota[..i + 1])
             == Trecho(sqrt, Trechos(sqrt, Partida(rota), rota[..i]), p) by {
        assert rota[..i + 1][..i] == rota[..i];
      }
      consumo, tempo, recargas := VoarTrecho(sqrt, d, p, consumo, tempo, recargas, atualX, atualY, carga);
      atualX, atualY := p.x, p.y;
      Entregar(p, ps);
      MarcadosDuas(ps, old(Estados(ps)), rota[..i], [p], ENTREGUE);
      entregas := entregas + 1;
      carga := carga - p.pesoKg;
      i := i + 1;
    }
    assert rota[..i] == rota;
    consumo, tempo, recargas := VoarRegresso(sqrt, d, consumo, tempo, recargas, atualX, atualY, carga);
  }

  /** What the technical simulation reports; the stats are keyed by drone id. */
  datatype SimulationReport = SimulationReport(
    plano: map<Drone, seq<Pedido>>,
    totalEntregas: nat,
    tempoMedioEntrega: real,
    droneMaisEficiente: Option<Drone>,
    bateriaConsumidaPorDrone: map<int, real>,
    recargasPorDrone: map<int, int>)

  /** The routes of the plan's entries, visited in the order `ordem`. */
  function RotasDe(plan: map<Drone, seq<Pedido>>, ordem: seq<Drone>): (r: seq<seq<Pedido>>)
    requires forall d :: d in ordem ==> d in plan
    ensures |r| == |ordem| && forall k :: 0 <= k < |ordem| ==> r[k] == plan[ordem[k]]
  {
    seq(|ordem|, k requires 0 <= k < |ordem| => plan[ordem[k]])
  }

  /** The running totals of the technical simulation: deliveries, distance, and the per-id stats. */
  datatype Totais = Totais(entregas: nat, tempo: real, consumo: map<int, real>, recargas: map<int, int>)

  /**
   * The totals after the first k entries of `ordem` (routes `rotas`): an empty route is
   * skipped, a flown one adds its deliveries and distance and records its consumption and
   * recharges under the drone's id, a later drone overwriting an earlier one with that id.
   */
  function TotaisAte(sqrt: real -> real, ordem: seq<Drone>, rotas: seq<seq<Pedido>>, k: nat): Totais
    requires k <= |ordem| == |rotas|
  {
    if k == 0 then Totais(0, 0.0, map[], map[])
    else
      var t := TotaisAte(sqrt, ordem, rotas, k - 1);
      if rotas[k - 1] == [] then t
      else
        var s := Simulacao(sqrt, rotas[k - 1]);
        Totais(t.entregas + |rotas[k - 1]|, t.tempo + s.tempo,
               t.consumo[ordem[k - 1].id := s.consumo], t.recargas[ordem[k - 1].id := s.recargas])
  }

  /** The planner's round trips of the first k non-empty routes, summed. */
  function DistanciaPlanejada(sqrt: real -> real, rotas: seq<seq<Pedido>>, k: nat): real
    requires k <= |rotas|
  {
    if k == 0 then 0.0
    else if rotas[k - 1] == [] then DistanciaPlanejada(sqrt, rotas, k - 1)
    else DistanciaPlanejada(sqrt, rotas, k - 1) + DistanciaRota(sqrt, rotas[k - 1])
  }

  /** The drones `e0` after the first k drones flew their non-empty routes. */
  function FrotaSimulada(sqrt: real -> real, e0: seq<EstadoDrone>, rotas: seq<seq<Pedido>>, k: nat): (r: seq<EstadoDrone>)
    requires k <= |e0| == |rotas|
    ensures |r| == |e0|
  {
    seq(|e0|, j requires 0 <= j < |e0| =>
      if j < k && rotas[j] != [] then EstadoSimulado(sqrt, e0[j], rotas[j]) else e0[j])
  }

  /** The report of the technical simulation of `plan`, whose entries are visited in the order `ordem`. */
  function Relatorio(sqrt: real -> real, plan: map<Drone, seq<Pedido>>, ordem: seq<Drone>): SimulationReport
    requires forall d :: d in ordem ==> d in plan
  {
    var t := TotaisAte(sqrt, ordem, RotasDe(plan, ordem), |ordem|);
    SimulationReport(
      plan, t.entregas,
      if t.entregas > 0 then t.tempo / t.entregas as real else 0.0,
      DroneMaisEficiente(plan, ordem), t.consumo, t.recargas)
  }

  /** Every order of a route flown is counted as delivered. */
  lemma {:induction false} TotaisEntregas(sqrt: real -> real, ordem: seq<Drone>, rotas: seq<seq<Pedido>>, k: nat)
    requires k <= |ordem| == |rotas|
    ensures TotaisAte(sqrt, ordem, rotas, k).entregas == |Atribuidos(rotas, k)|
  {
    if k > 0 {
      TotaisEntregas(sqrt, ordem, rotas, k - 1);
    }
  }

  /** The distance the simulation counts is the sum of the planner's round trips. */
  lemma {:induction false} TotaisDistancia(sqrt: real -> real, ordem: seq<Drone>, rotas: seq<seq<Pedido>>, k: nat)
    requires k <= |ordem| == |rotas|
    ensures TotaisAte(sqrt, ordem, rotas, k).tempo == DistanciaPlanejada(sqrt, rotas, k)
  {
    if k > 0 {
      TotaisDistancia(sqrt, ordem, rotas, k - 1);
      if rotas[k - 1] != [] {
        SimulacaoPercorreRota(sqrt, rotas[k - 1]);
      }
    }
  }

  /** The ids of the drones among the first k whose route is not empty. */
  function IdsVoados(ordem: seq<Drone>, rotas: seq<seq<Pedido>>, k: nat): set<int>
    requires k <= |ordem| == |rotas|
  {
    set j | 0 <= j < k && rotas[j] != [] :: ordem[j].id
  }

  /** Drone j is the last of the first k with a non-empty route to carry its id. */
  predicate UltimoComId(ordem: seq<Drone>, rotas: seq<seq<Pedido>>, j: nat, k: nat)
    requires j < k <= |ordem| == |rotas|
  {
    rotas[j] != [] && forall i :: j < i < k && rotas[i] != [] ==> ordem[i].id != ordem[j].id
  }

  /** The stats are keyed by exactly the ids of the drones that flew. */
  lemma {:induction false} TotaisChaves(sqrt: real -> real, ordem: seq<Drone>, rotas: seq<seq<Pedido>>, k: nat)
    requires k <= |ordem| == |rotas|
    ensures TotaisAte(sqrt, ordem, rotas, k).consumo.Keys == IdsVoados(ordem, rotas, k)
    ensures TotaisAte(sqrt, ordem, rotas, k).recargas.Keys == IdsVoados(ordem, rotas, k)
  {
    if k > 0 {
      TotaisChaves(sqrt, ordem, rotas, k - 1);
      var anteriores := IdsVoados(ordem, rotas, k - 1);
      if rotas[k - 1] != [] {
        assert IdsVoados(ordem, rotas, k) == anteriores + {ordem[k - 1].id};
      } else {
        assert IdsVoados(ordem, rotas, k) == anteriores;
      }
    }
  }

  /** Each id holds the consumption and recharges of the replay of the last drone with that id to fly. */
  lemma {:induction false} TotaisValores(sqrt: real -> real, ordem: seq<Drone>, rotas: seq<seq<Pedido>>, k: nat, j: nat)
    requires j < k <= |ordem| == |rotas|
    requires UltimoComId(ordem, rotas, j, k)
    ensures ordem[j].id in TotaisAte(sqrt, ordem, rotas, k).consumo
    ensures ordem[j].id in TotaisAte(sqrt, ordem, rotas, k).recargas
    ensures TotaisAte(sqrt, ordem, rotas, k).consumo[ordem[j].id] == Simulacao(sqrt, rotas[j]).consumo
    ensures TotaisAte(sqrt, ordem, rotas, k).recargas[ordem[j].id] == Simulacao(sqrt, rotas[j]).recargas
  {
    if j < k - 1 {
      assert UltimoComId(ordem, rotas, j, k - 1);
      TotaisValores(sqrt, ordem, rotas, k - 1, j);
    }
  }

  /** With correct square roots and non-negative weights, no drone's consumption is negative. */
  lemma {:induction false} TotaisConsumoNaoNegativo(sqrt: real -> real, ordem: seq<Drone>, rotas: seq<seq<Pedido>>, k: nat)
    requires IsSqrt(sqrt)
    requires k <= |ordem| == |rotas|
    requires forall j, p :: 0 <= j < k && p in rotas[j] ==> 0.0 <= p.pesoKg
    ensures forall id :: id in TotaisAte(sqrt, ordem, rotas, k).consumo ==> 0.0 <= TotaisAte(sqrt, ordem, rotas, k).consumo[id]
    ensures 0.0 <= TotaisAte(sqrt, ordem, rotas, k).tempo
  {
    if k > 0 {
      TotaisConsumoNaoNegativo(sqrt, ordem, rotas, k - 1);
      if rotas[k - 1] != [] {
        SimulacaoLimitada(sqrt, rotas[k - 1]);
        SimulacaoPercorreRota(sqrt, rotas[k - 1]);
        PercursoNaoNegativo(sqrt, rotas[k - 1]);
      }
    }
  }

  /**
   * The report in the planner's terms: every planned order is counted as delivered, the
   * mean distance per delivery is the planned distance over that count (0 when nothing
   * was planned), the stats are keyed by the ids of the drones with a route, and the most
   * efficient drone is one with the most orders.
   */
  lemma RelatorioCorreto(sqrt: real -> real, plan: map<Drone, seq<Pedido>>, ordem: seq<Drone>)
    requires forall d :: d in ordem ==> d in plan
    ensures Relatorio(sqrt, plan, ordem).plano == plan
    ensures Relatorio(sqrt, plan, ordem).totalEntregas == |Atribuidos(RotasDe(plan, ordem), |ordem|)|
    ensures Relatorio(sqrt, plan, ordem).tempoMedioEntrega ==
            if Relatorio(sqrt, plan, ordem).totalEntregas > 0
            then DistanciaPlanejada(sqrt, RotasDe(plan, ordem), |ordem|) / Relatorio(sqrt, plan, ordem).totalEntregas as real
            else 0.0
    ensures Relatorio(sqrt, plan, ordem).bateriaConsumidaPorDrone.Keys == IdsVoados(ordem, RotasDe(plan, ordem), |ordem|)
    ensures Relatorio(sqrt, plan, ordem).recargasPorDrone.Keys == IdsVoados(ordem, RotasDe(plan, ordem), |ordem|)
    ensures Relatorio(sqrt, plan, ordem).droneMaisEficiente.None? <==> ordem == []
    ensures forall d :: d in ordem && Relatorio(sqrt, plan, ordem).droneMaisEficiente.Some? ==>
              |plan[d]| <= |plan[Relatorio(sqrt, plan, ordem).droneMaisEficiente.value]|
  {
    var rotas := RotasDe(plan, ordem);
    TotaisEntregas(sqrt, ordem, rotas, |ordem|);
    TotaisDistancia(sqrt, ordem, rotas, |ordem|);
    TotaisChaves(sqrt, ordem, rotas, |ordem|);
  }

  /** With distinct ids, each drone with a route has its own replay's figures in the report. */
  lemma RelatorioPorDrone(sqrt: real -> real, plan: map<Drone, seq<Pedido>>, ordem: seq<Drone>, j: nat)
    requires forall d :: d in ordem ==> d in plan
    requires forall a, b :: 0 <= a < b < |ordem| ==> ordem[a].id != ordem[b].id
    requires j < |ordem| && plan[ordem[j]] != []
    ensures ordem[j].id in Relatorio(sqrt, plan, ordem).bateriaConsumidaPorDrone
    ensures ordem[j].id in Relatorio(sqrt, plan, ordem).recargasPorDrone
    ensures Relatorio(sqrt, plan, ordem).bateriaConsumidaPorDrone[ordem[j].id] == Simulacao(sqrt, plan[ordem[j]]).consumo
    ensures Relatorio(sqrt, plan, ordem).recargasPorDrone[ordem[j].id] == Simulacao(sqrt, plan[ordem[j]]).recargas
  {
    var rotas := RotasDe(plan, ordem);
    assert UltimoComId(ordem, rotas, j, |ordem|);
    TotaisValores(sqrt, ordem, rotas, |ordem|, j);
  }

  /** Drone k flies its non-empty route, seen on the whole fleet and order list. */
  method SimularDrone(sqrt: real -> real, ordem: seq<Drone>, k: nat, rota: seq<Pedido>, ghost ps: seq<Pedido>,
                      ghost e0: seq<EstadoDrone>, ghost rotas: seq<seq<Pedido>>)
    returns (consumo: real, recargas: nat, tempo: real, entregas: nat)
    requires forall i, j :: 0 <= i < j < |ordem| ==> ordem[i] != ordem[j]
    requires k < |ordem| == |e0| == |rotas| && rota == rotas[k] && rota != []
    requires Retrato(ordem) == FrotaSimulada(sqrt, e0, rotas, k)
    modifies ordem, rota
    ensures consumo == Simulacao(sqrt, rota).consumo && recargas == Simulacao(sqrt, rota).recargas
    ensures tempo == Simulacao(sqrt, rota).tempo && entregas == |rota|
    ensures Retrato(ordem) == FrotaSimulada(sqrt, e0, rotas, k + 1)
    ensures Estados(ps) == Marcados(ps, old(Estados(ps)), rota, ENTREGUE)
  {
    RetratoIndice(ordem);
    ghost var frota0 := Retrato(ordem);
    assert EstadoDe(ordem[k]) == e0[k] by {
      assert frota0[k] == FrotaSimulada(sqrt, e0, rotas, k)[k];
    }
    consumo, recargas, tempo, entregas := SimularRota(sqrt, ordem[k], rota, ps);
    RetratoIndice(ordem);
    assert Retrato(ordem) == FrotaSimulada(sqrt, e0, rotas, k + 1) by {
      forall j | 0 <= j < |ordem|
        ensures Retrato(ordem)[j] == FrotaSimulada(sqrt, e0, rotas, k + 1)[j]
      {
        if j != k {
          assert ordem[j] != ordem[k];
          assert frota0[j] == FrotaSimulada(sqrt, e0, rotas, k)[j];
        }
      }
    }
  }

  /**
   * One pass of the loop over the plan: the k-th drone flies its route unless it is
   * empty, and its figures are added to the totals `t`.
   */
  method TurnoSimulacao(sqrt: real -> real, plan: map<Drone, seq<Pedido>>, ordem: seq<Drone>, k: nat,
                        ghost ps: seq<Pedido>, ghost e0: seq<EstadoDrone>, ghost rotas: seq<seq<Pedido>>, t: Totais)
    returns (t': Totais)
    requires forall d :: d in ordem ==> d in plan
    requires forall i, j :: 0 <= i < j < |ordem| ==> ordem[i] != ordem[j]
    requires k < |ordem| == |e0| && rotas == RotasDe(plan, ordem)
    requires Retrato(ordem) == FrotaSimulada(sqrt, e0, rotas, k)
    requires t == TotaisAte(sqrt, ordem, rotas, k)
    modifies ordem, rotas[k]
    ensures Retrato(ordem) == FrotaSimulada(sqrt, e0, rotas, k + 1)
    ensures Estados(ps) == Marcados(ps, old(Estados(ps)), rotas[k], ENTREGUE)
    ensures t' == TotaisAte(sqrt, ordem, rotas, k + 1)
  {
    var drone := ordem[k];
    var pedidosRota := plan[drone];
    assert pedidosRota == rotas[k];
    if pedidosRota != [] {
      ghost var s := Simulacao(sqrt, pedidosRota);
      assert TotaisAte(sqrt, ordem, rotas, k + 1)
             == Totais(t.entregas + |pedidosRota|, t.tempo + s.tempo, t.consumo[drone.id := s.consumo], t.recargas[drone.id := s.recargas]);
      var consumo, recargas, tempo, entregas := SimularDrone(sqrt, ordem, k, pedidosRota, ps, e0, rotas);
      t' := Totais(t.entregas + entregas, t.tempo + tempo, t.consumo[drone.id := consumo], t.recargas[drone.id := recargas]);
    } else {
      t' := t;
      assert FrotaSimulada(sqrt, e0, rotas, k + 1) == FrotaSimulada(sqrt, e0, rotas, k);
      MarcadosVazio(ps, Estados(ps), ENTREGUE);
    }
  }

  /**
   * The technical simulation of `plan`, whose entries are visited in the order `ordem`:
   * each drone with a non-empty route flies it (`SimularRota`) and its consumption and
   * recharges are recorded under its id; then the totals. The report is `Relatorio`, the
   * drones end as `FrotaSimulada` says and exactly the planned orders become ENTREGUE.
   */
  method RunSimulation(sqrt: real -> real, plan: map<Drone, seq<Pedido>>, ordem: seq<Drone>, ghost ps: seq<Pedido>)
    returns (report: SimulationReport)
    requires forall d :: d in plan <==> d in ordem
    requires forall i, j :: 0 <= i < j < |ordem| ==> ordem[i] != ordem[j]
    modifies ordem, set p | p in Atribuidos(RotasDe(plan, ordem), |ordem|)
    ensures report == Relatorio(sqrt, plan, ordem)
    ensures Retrato(ordem) == FrotaSimulada(sqrt, old(Retrato(ordem)), RotasDe(plan, ordem), |ordem|)
    ensures Estados(ps) == Marcados(ps, old(Estados(ps)), Atribuidos(RotasDe(plan, ordem), |ordem|), ENTREGUE)
  {
    ghost var rotas := RotasDe(plan, ordem);
    ghost var e0 := Retrato(ordem);
    assert Retrato(ordem) == FrotaSimulada(sqrt, e0, rotas, 0);
    MarcadosVazio(ps, Estados(ps), ENTREGUE);
    var t := Totais(0, 0.0, map[], map[]);
    var k := 0;
    while k < |ordem|
      invariant 0 <= k <= |ordem|
      invariant Retrato(ordem) == FrotaSimulada(sqrt, e0, rotas, k)
      invariant Estados(ps) == Marcados(ps, old(Estados(ps)), Atribuidos(rotas, k), ENTREGUE)
      invariant t == TotaisAte(sqrt, ordem, rotas, k)
    {
      assert forall p :: p in rotas[k] ==> p in Atribuidos(rotas, |ordem|) by {
        AtribuidosPrefixo(rotas, |ordem|);
      }
      t := TurnoSimulacao(sqrt, plan, ordem, k, ps, e0, rotas, t);
      MarcadosDuas(ps, old(Estados(ps)), Atribuidos(rotas, k), rotas[k], ENTREGUE);
      k := k + 1;
    }
    report := SimulationReport(plan, t.entregas,
      if t.entregas > 0 then t.tempo / t.entregas as real else 0.0,
      DroneMaisEficiente(plan, ordem), t.consumo, t.recargas);
  }
}
