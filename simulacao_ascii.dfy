/**
 * The stepped simulation of a plan. Every pass steps each drone of the plan once:
 * an IDLE drone with orders left loads the next one, a loading drone takes off, a
 * flying drone moves one unit toward its order or delivers it when within 1 km, a
 * returning drone moves one unit toward the base or lands there; a drone at or below
 * the charge limit in the middle of a task turns back. Passes go on until one finds no
 * drone active. Each drone's step is a method proved to do what `PassoDrone` defines,
 * the pass is proved against `RodadaAte` and the run against `Avancar`.
 */
module SimulacaoAscii {
  import opened Enums
  import opened GeoUtils
  import opened Model
  import opened Planning
  import opened Service
  import opened Simulator

  /** A change of an order's status made by a step. */
  datatype Marca = Marca(pedido: Pedido, status: StatusPedido)

  /** One drone's step: its new state and route cursor, whether it counts as active, and the orders it marked. */
  datatype Passo = Passo(e: EstadoDrone, cursor: nat, ativo: bool, marcas: seq<Marca>)

  function Abs(x: real): real
  {
    if x < 0.0 then -x else x
  }

  /** The move along one axis toward `alvo`: one unit toward it, none when already there. */
  function Rumo(de: real, alvo: real): (r: real)
    ensures Abs(r) <= 1.0
    ensures r == 0.0 <==> de == alvo
    ensures Abs(alvo - de) < 1.0 ==> Abs(alvo - (de + r)) < 1.0
    ensures 1.0 <= Abs(alvo - de) ==> Abs(alvo - (de + r)) == Abs(alvo - de) - 1.0
  {
    if alvo > de then 1.0 else if alvo < de then -1.0 else 0.0
  }

  // ---------------------------------------------------------------------------
  // One drone's step, phase by phase
  // ---------------------------------------------------------------------------

  /**
   * The action: an IDLE drone loads the order at its cursor, which becomes ALOCADO; a
   * loading drone takes off; any other drone is left as it is.
   */
  function Acao(e: EstadoDrone, c: nat, rota: seq<Pedido>): (r: Passo)
    requires e.status == IDLE ==> c < |rota|
  {
    if e.status == IDLE then
      Passo(EstadoDrone(e.posX, e.posY, e.bateria, CARREGANDO, rota[c]), c, false, [Marca(rota[c], ALOCADO)])
    else if e.status == CARREGANDO then
      Passo(e.(status := EM_VOO), c, false, [])
    else
      Passo(e, c, false, [])
  }

  /**
   * The movement of a flying drone with order `p`, which is active: within 1 km of `p`
   * it lands on it, delivers it (ENTREGUE), drops it, advances its cursor and either
   * returns (no orders left) or waits IDLE for the next one; farther away, it moves one
   * unit per axis toward it for 0.5 of charge.
   */
  function MovimentoVoo(sqrt: real -> real, e: EstadoDrone, p: Pedido, c: nat, rota: seq<Pedido>): Passo
  {
    if DistanciaKm(sqrt, e.posX, e.posY, p.x, p.y) <= 1.0 then
      Passo(EstadoDrone(p.x, p.y, e.bateria, if c + 1 >= |rota| then RETORNANDO else IDLE, null),
            c + 1, true, [Marca(p, ENTREGUE)])
    else
      Passo(EstadoDrone(e.posX + Rumo(e.posX, p.x), e.posY + Rumo(e.posY, p.y),
                        AposConsumo(e.bateria, 0.5), e.status, e.pedido), c, true, [])
  }

  /**
   * The movement of a returning drone, which is active: within 1 km of the base it
   * lands at (0, 0), its cursor jumps to the end of its route and it ends IDLE,
   * recharged when at or below the limit; farther away, it moves one unit per axis
   * toward the base for 0.5 of charge.
   */
  function MovimentoRegresso(sqrt: real -> real, e: EstadoDrone, c: nat, rota: seq<Pedido>): Passo
  {
    if DistanciaKm(sqrt, e.posX, e.posY, 0.0, 0.0) <= 1.0 then
      if e.bateria <= LIMITE_RECARGA then Passo(EstadoDrone(0.0, 0.0, 100.0, IDLE, null), |rota|, true, [])
      else Passo(EstadoDrone(0.0, 0.0, e.bateria, IDLE, e.pedido), |rota|, true, [])
    else
      Passo(EstadoDrone(e.posX + Rumo(e.posX, 0.0), e.posY + Rumo(e.posY, 0.0),
                        AposConsumo(e.bateria, 0.5), e.status, e.pedido), c, true, [])
  }

  /** The movement: of a flying drone that holds an order, or of a returning drone; no other drone moves. */
  function Movimento(sqrt: real -> real, e: EstadoDrone, c: nat, rota: seq<Pedido>): Passo
  {
    if e.status == EM_VOO && e.pedido != null then MovimentoVoo(sqrt, e, e.pedido, c, rota)
    else if e.status == RETORNANDO then MovimentoRegresso(sqrt, e, c, rota)
    else Passo(e, c, false, [])
  }

  /** The low-charge check: a drone at or below the limit that is neither returning nor IDLE turns back and drops its order. */
  function Alerta(e: EstadoDrone): EstadoDrone
  {
    if e.bateria <= LIMITE_RECARGA && e.status != RETORNANDO && e.status != IDLE then
      e.(status := RETORNANDO, pedido := null)
    else e
  }

  /**
   * A drone's whole step. An IDLE drone at the end of its route is skipped; otherwise
   * the action, the movement and the low-charge check follow one another, and the
   * drone counts as active when the movement said so or it is not IDLE afterwards.
   */
  function PassoDrone(sqrt: real -> real, e: EstadoDrone, c: nat, rota: seq<Pedido>): Passo
  {
    if e.status == IDLE && c >= |rota| then Passo(e, c, false, [])
    else
      var a := Acao(e, c, rota);
      var m := Movimento(sqrt, a.e, c, rota);
      var e' := Alerta(m.e);
      Passo(e', m.cursor, m.ativo || e'.status != IDLE, a.marcas + m.marcas)
  }

  // ---------------------------------------------------------------------------
  // Order statuses under a sequence of marks
  // ---------------------------------------------------------------------------

  /** The statuses `s0` of `ps` after the marks are applied in order. */
  function Aplicado(ps: seq<Pedido>, s0: seq<StatusPedido>, marcas: seq<Marca>): (r: seq<StatusPedido>)
    requires |s0| == |ps|
    ensures |r| == |ps|
  {
    if marcas == [] then s0
    else
      var m := marcas[|marcas| - 1];
      Marcados(ps, Aplicado(ps, s0, marcas[..|marcas| - 1]), [m.pedido], m.status)
  }

  /** An order that no mark names keeps its status. */
  lemma {:induction false} AplicadoSemMarca(ps: seq<Pedido>, s0: seq<StatusPedido>, marcas: seq<Marca>, i: nat)
    requires |s0| == |ps| && i < |ps|
    requires forall j :: 0 <= j < |marcas| ==> marcas[j].pedido != ps[i]
    ensures Aplicado(ps, s0, marcas)[i] == s0[i]
  {
    if marcas != [] {
      AplicadoSemMarca(ps, s0, marcas[..|marcas| - 1], i);
    }
  }

  /** An order ends with the status of the last mark that names it. */
  lemma {:induction false} AplicadoUltimaMarca(ps: seq<Pedido>, s0: seq<StatusPedido>, marcas: seq<Marca>, i: nat, j: nat)
    requires |s0| == |ps| && i < |ps| && j < |marcas|
    requires marcas[j].pedido == ps[i]
    requires forall l :: j < l < |marcas| ==> marcas[l].pedido != ps[i]
    ensures Aplicado(ps, s0, marcas)[i] == marcas[j].status
  {
    var ini := marcas[..|marcas| - 1];
    if j < |ini| {
      assert ini[j] == marcas[j];
      AplicadoUltimaMarca(ps, s0, ini, i, j);
    }
  }

  /** Applying two runs of marks in turn is applying them one after the other at once. */
  lemma {:induction false} AplicadoConcat(ps: seq<Pedido>, s0: seq<StatusPedido>, a: seq<Marca>, b: seq<Marca>)
    requires |s0| == |ps|
    ensures Aplicado(ps, s0, a + b) == Aplicado(ps, Aplicado(ps, s0, a), b)
  {
    if b == [] {
      assert a + b == a;
    } else {
      assert (a + b)[..|a + b| - 1] == a + b[..|b| - 1];
      AplicadoConcat(ps, s0, a, b[..|b| - 1]);
    }
  }

  /** The statuses of `ps` once `p`, and nothing else, has been set to `s`. */
  lemma EstadosMarcado(ps: seq<Pedido>, s0: seq<StatusPedido>, p: Pedido, s: StatusPedido)
    requires |s0| == |ps|
    requires forall i :: 0 <= i < |ps| ==> ps[i].status == if ps[i] == p then s else s0[i]
    ensures Estados(ps) == Aplicado(ps, s0, [Marca(p, s)])
  {
    EstadosIndice(ps);
    assert [Marca(p, s)][..0] == [];
  }

  // ---------------------------------------------------------------------------
  // Properties of a drone's step
  // ---------------------------------------------------------------------------

  /**
   * A drone's state agrees with its route and cursor: the cursor is within the route,
   * the status is one the simulation uses, exactly the loading and flying drones hold an
   * order, that order is the one at the cursor, and the charge is in [0, 100].
   */
  predicate Coerente(e: EstadoDrone, c: nat, rota: seq<Pedido>)
  {
    && c <= |rota|
    && (e.status == IDLE || e.status == CARREGANDO || e.status == EM_VOO || e.status == RETORNANDO)
    && ((e.status == CARREGANDO || e.status == EM_VOO) <==> e.pedido != null)
    && (e.pedido != null ==> c < |rota| && e.pedido == rota[c])
    && 0.0 <= e.bateria <= 100.0
  }

  /** A drone as the allocation leaves it, with its cursor at the start of its route, is coherent. */
  lemma AlocacaoCoerente(rota: seq<Pedido>)
    ensures Coerente(EstadoApos(rota), 0, rota)
  {
  }

  /** A step keeps a drone coherent. */
  lemma PassoCoerente(sqrt: real -> real, e: EstadoDrone, c: nat, rota: seq<Pedido>)
    requires Coerente(e, c, rota)
    ensures Coerente(PassoDrone(sqrt, e, c, rota).e, PassoDrone(sqrt, e, c, rota).cursor, rota)
  {
    if !(e.status == IDLE && c >= |rota|) {
      var a := Acao(e, c, rota);
      var m := Movimento(sqrt, a.e, c, rota);
      assert Coerente(a.e, c, rota);
      assert Coerente(m.e, m.cursor, rota);
      ConsumoPreservaBateria(a.e.bateria, 0.5);
    }
  }

  /**
   * A coherent drone is inactive exactly when it is IDLE at the end of its route, and
   * then the step changes nothing and marks nothing.
   */
  lemma PassoInativo(sqrt: real -> real, e: EstadoDrone, c: nat, rota: seq<Pedido>)
    requires Coerente(e, c, rota)
    ensures !PassoDrone(sqrt, e, c, rota).ativo <==> e.status == IDLE && c == |rota|
    ensures !PassoDrone(sqrt, e, c, rota).ativo ==> PassoDrone(sqrt, e, c, rota) == Passo(e, c, false, [])
  {
  }

  /**
   * Orders are taken in route order: a coherent drone's step marks nothing, or loads the
   * order at its cursor (ALOCADO), or delivers it (ENTREGUE) and moves the cursor past
   * it; otherwise the cursor only jumps to the end of the route on landing at the base.
   */
  lemma PassoEmOrdem(sqrt: real -> real, e: EstadoDrone, c: nat, rota: seq<Pedido>)
    requires Coerente(e, c, rota)
    ensures var r := PassoDrone(sqrt, e, c, rota);
      || (r.marcas == [] && (r.cursor == c || r.cursor == |rota|))
      || (c < |rota| && r.marcas == [Marca(rota[c], ALOCADO)] && r.cursor == c)
      || (c < |rota| && r.marcas == [Marca(rota[c], ENTREGUE)] && r.cursor == c + 1)
  {
  }

  /** With a real square root, no step moves a drone more than one unit along either axis. */
  lemma PassoDesloca(sqrt: real -> real, e: EstadoDrone, c: nat, rota: seq<Pedido>)
    requires IsSqrt(sqrt)
    ensures Abs(PassoDrone(sqrt, e, c, rota).e.posX - e.posX) <= 1.0
    ensures Abs(PassoDrone(sqrt, e, c, rota).e.posY - e.posY) <= 1.0
  {
    if !(e.status == IDLE && c >= |rota|) {
      var a := Acao(e, c, rota);
      if a.e.status == EM_VOO && a.e.pedido != null {
        var p := a.e.pedido;
        if DistanciaKm(sqrt, a.e.posX, a.e.posY, p.x, p.y) <= 1.0 {
          DistanciaAteUm(sqrt, a.e.posX, a.e.posY, p.x, p.y);
        }
      } else if a.e.status == RETORNANDO {
        if DistanciaKm(sqrt, a.e.posX, a.e.posY, 0.0, 0.0) <= 1.0 {
          DistanciaAteUm(sqrt, a.e.posX, a.e.posY, 0.0, 0.0);
        }
      }
    }
  }

  /** Two points at most 1 km apart differ by at most one unit along each axis. */
  lemma DistanciaAteUm(sqrt: real -> real, x1: real, y1: real, x2: real, y2: real)
    requires IsSqrt(sqrt)
    requires DistanciaKm(sqrt, x1, y1, x2, y2) <= 1.0
    ensures Abs(x2 - x1) <= 1.0 && Abs(y2 - y1) <= 1.0
  {
    var r := DistanciaKm(sqrt, x1, y1, x2, y2);
    assert r * r <= 1.0 by {
      if r > 0.0 {
        assert r * r <= r * 1.0;
      }
    }
    var dx, dy := x2 - x1, y2 - y1;
    assert r * r == dx * dx + dy * dy;
    assert 0.0 <= dx * dx && 0.0 <= dy * dy;
    assert dx * dx <= 1.0 && dy * dy <= 1.0;
    if 1.0 < Abs(dx) {
      SquareLess(1.0, Abs(dx));
      assert false;
    }
    if 1.0 < Abs(dy) {
      SquareLess(1.0, Abs(dy));
      assert false;
    }
  }

  /**
   * The low-charge override: after a step, a drone at or below the charge limit is
   * returning or IDLE, never loading or flying toward an order; a returning drone holds
   * no order.
   */
  lemma PassoSeguranca(sqrt: real -> real, e: EstadoDrone, c: nat, rota: seq<Pedido>)
    requires Coerente(e, c, rota)
    ensures var r := PassoDrone(sqrt, e, c, rota).e;
      && (r.bateria <= LIMITE_RECARGA ==> r.status == RETORNANDO || r.status == IDLE)
      && (r.status == RETORNANDO ==> r.pedido == null)
  {
    PassoCoerente(sqrt, e, c, rota);
  }

  /** A step leaves the drone with no order, the order it had, or the order at its cursor. */
  lemma PassoPedido(sqrt: real -> real, e: EstadoDrone, c: nat, rota: seq<Pedido>)
    ensures var q := PassoDrone(sqrt, e, c, rota).e.pedido;
      q == null || q == e.pedido || (c < |rota| && q == rota[c])
  {
  }

  // ---------------------------------------------------------------------------
  // One drone's step, on the drone itself
  // ---------------------------------------------------------------------------

  /** The movement of flying drone `d` toward its order `p`. */
  method VoarParaPedido(sqrt: real -> real, d: Drone, p: Pedido, c: nat, rota: seq<Pedido>, ghost ps: seq<Pedido>)
    returns (c': nat)
    modifies d, p
    ensures EstadoDe(d) == MovimentoVoo(sqrt, old(EstadoDe(d)), p, c, rota).e
    ensures c' == MovimentoVoo(sqrt, old(EstadoDe(d)), p, c, rota).cursor
    ensures Estados(ps) == Aplicado(ps, old(Estados(ps)), MovimentoVoo(sqrt, old(EstadoDe(d)), p, c, rota).marcas)
  {
    c' := c;
    var dx := Rumo(d.posX, p.x);
    var dy := Rumo(d.posY, p.y);
    if DistanciaKm(sqrt, d.posX, d.posY, p.x, p.y) <= 1.0 {
      d.SetX(p.x);
      d.SetY(p.y);
      Entregar(p, ps);
      assert [Marca(p, ENTREGUE)][..0] == [];
      d.FinishPedido();
      c' := c + 1;
      if c + 1 >= |rota| {
        d.SetStatus(RETORNANDO);
      } else {
        d.SetStatus(IDLE);
      }
    } else {
      d.SetX(d.posX + dx);
      d.SetY(d.posY + dy);
      d.ConsumirBateria(0.5);
    }
  }

  /** The movement of returning drone `d` toward the base. */
  method VoltarParaBase(sqrt: real -> real, d: Drone, c: nat, rota: seq<Pedido>) returns (c': nat)
    modifies d
    ensures EstadoDe(d) == MovimentoRegresso(sqrt, old(EstadoDe(d)), c, rota).e
    ensures c' == MovimentoRegresso(sqrt, old(EstadoDe(d)), c, rota).cursor
  {
    c' := c;
    var dx := Rumo(d.posX, 0.0);
    var dy := Rumo(d.posY, 0.0);
    if DistanciaKm(sqrt, d.posX, d.posY, 0.0, 0.0) <= 1.0 {
      d.RecarregarPosicao();
      c' := |rota|;
      if d.bateriaPercent <= LIMITE_RECARGA {
        d.Recarregar();
      } else {
        d.SetStatus(IDLE);
      }
    } else {
      d.SetX(d.posX + dx);
      d.SetY(d.posY + dy);
      d.ConsumirBateria(0.5);
    }
  }

  /** The movement phase on drone `d`, whose order, if any, is in `alvo`. */
  method MoverDrone(sqrt: real -> real, d: Drone, c: nat, rota: seq<Pedido>, ghost ps: seq<Pedido>, ghost alvo: set<Pedido>)
    returns (c': nat, ativo: bool)
    requires d.currentPedido != null ==> d.currentPedido in alvo
    modifies d, alvo
    ensures EstadoDe(d) == Movimento(sqrt, old(EstadoDe(d)), c, rota).e
    ensures c' == Movimento(sqrt, old(EstadoDe(d)), c, rota).cursor
    ensures ativo == Movimento(sqrt, old(EstadoDe(d)), c, rota).ativo
    ensures Estados(ps) == Aplicado(ps, old(Estados(ps)), Movimento(sqrt, old(EstadoDe(d)), c, rota).marcas)
  {
    c', ativo := c, false;
    if d.status == EM_VOO {
      var p := d.currentPedido;
      if p != null {
        ativo := true;
        c' := VoarParaPedido(sqrt, d, p, c, rota, ps);
      }
    } else if d.status == RETORNANDO {
      ativo := true;
      c' := VoltarParaBase(sqrt, d, c, rota);
    }
  }

  /** The action phase on drone `d`: an IDLE drone loads the order at its cursor, a loading drone takes off. */
  method Agir(d: Drone, c: nat, rota: seq<Pedido>, ghost ps: seq<Pedido>)
    requires d.status == IDLE ==> c < |rota|
    modifies d, rota
    ensures EstadoDe(d) == Acao(old(EstadoDe(d)), c, rota).e
    ensures Estados(ps) == Aplicado(ps, old(Estados(ps)), Acao(old(EstadoDe(d)), c, rota).marcas)
  {
    if d.status == IDLE {
      var next := rota[c];
      ghost var s0 := Estados(ps);
      EstadosIndice(ps);
      d.AssignPedido(next);
      EstadosMarcado(ps, s0, next, ALOCADO);
    } else if d.status == CARREGANDO {
      d.SetStatus(EM_VOO);
    }
  }

  /**
   * Drone `d`'s step with its route `rota` and cursor `c`: what `PassoDrone` says of the
   * drone, the cursor and activity, and the orders' statuses. Its route's orders and its
   * current order are in `alvo`, and so is the order it holds afterwards.
   */
  method AvancarDrone(sqrt: real -> real, d: Drone, c: nat, rota: seq<Pedido>, ghost ps: seq<Pedido>, ghost alvo: set<Pedido>)
    returns (c': nat, ativo: bool)
    requires forall p :: p in rota ==> p in alvo
    requires d.currentPedido != null ==> d.currentPedido in alvo
    modifies d, alvo
    ensures EstadoDe(d) == PassoDrone(sqrt, old(EstadoDe(d)), c, rota).e
    ensures c' == PassoDrone(sqrt, old(EstadoDe(d)), c, rota).cursor
    ensures ativo == PassoDrone(sqrt, old(EstadoDe(d)), c, rota).ativo
    ensures Estados(ps) == Aplicado(ps, old(Estados(ps)), PassoDrone(sqrt, old(EstadoDe(d)), c, rota).marcas)
    ensures d.currentPedido != null ==> d.currentPedido in alvo
  {
    if d.status == IDLE && c >= |rota| {
      c', ativo := c, false;
      return;
    }
    ghost var a := Acao(EstadoDe(d), c, rota);
    Agir(d, c, rota, ps);
    c', ativo := MoverDrone(sqrt, d, c, rota, ps, alvo);
    AplicadoConcat(ps, old(Estados(ps)), a.marcas, Movimento(sqrt, a.e, c, rota).marcas);
    if d.bateriaPercent <= LIMITE_RECARGA && d.status != RETORNANDO && d.status != IDLE {
      d.SetStatus(RETORNANDO);
      d.FinishPedido();
    }
    if d.status != IDLE {
      ativo := true;
    }
  }

  // ---------------------------------------------------------------------------
  // Passes over the fleet
  // ---------------------------------------------------------------------------

  /** The fleet between steps: each drone's state and cursor, whether a drone was active, and the marks so far. */
  datatype Cena = Cena(estados: seq<EstadoDrone>, cursores: seq<nat>, ativo: bool, marcas: seq<Marca>)

  /** The pass over the fleet after its first k drones have stepped, in order; `ativo` and `marcas` are this pass's. */
  function RodadaAte(sqrt: real -> real, rotas: seq<seq<Pedido>>, estados: seq<EstadoDrone>, cursores: seq<nat>, k: nat): (r: Cena)
    requires |estados| == |cursores| == |rotas| && k <= |rotas|
    ensures |r.estados| == |r.cursores| == |rotas|
    ensures forall j :: k <= j < |rotas| ==> r.estados[j] == estados[j] && r.cursores[j] == cursores[j]
  {
    if k == 0 then Cena(estados, cursores, false, [])
    else
      var r := RodadaAte(sqrt, rotas, estados, cursores, k - 1);
      var p := PassoDrone(sqrt, r.estados[k - 1], r.cursores[k - 1], rotas[k - 1]);
      Cena(r.estados[k - 1 := p.e], r.cursores[k - 1 := p.cursor], r.ativo || p.ativo, r.marcas + p.marcas)
  }

  /** The fleet before the first pass: every cursor at the start of its route, and active so that a pass runs. */
  function Inicio(estados: seq<EstadoDrone>): (r: Cena)
  {
    Cena(estados, seq(|estados|, j => 0), true, [])
  }

  /** The fleet after at most n passes: passes run while the previous one found a drone active. */
  function Avancar(sqrt: real -> real, rotas: seq<seq<Pedido>>, c: Cena, n: nat): (r: Cena)
    requires |c.estados| == |c.cursores| == |rotas|
    ensures |r.estados| == |r.cursores| == |rotas|
  {
    if n == 0 then c
    else
      var a := Avancar(sqrt, rotas, c, n - 1);
      if !a.ativo then a
      else
        var r := RodadaAte(sqrt, rotas, a.estados, a.cursores, |rotas|);
        Cena(r.estados, r.cursores, r.ativo, a.marcas + r.marcas)
  }

  /** Drone k steps, seen on the whole fleet: the fleet becomes the pass after k + 1 drones. */
  method PassoNaFrota(sqrt: real -> real, ordem: seq<Drone>, k: nat, rota: seq<Pedido>, cursores: seq<nat>,
                      ghost ps: seq<Pedido>, ghost alvo: set<Pedido>, ghost rotas: seq<seq<Pedido>>,
                      ghost estados: seq<EstadoDrone>, ghost cursores0: seq<nat>, ghost estados0: seq<EstadoDrone>)
    returns (c': nat, ativo: bool)
    requires forall i, j :: 0 <= i < j < |ordem| ==> ordem[i] != ordem[j]
    requires k < |ordem| == |rotas| == |estados| == |cursores0| == |cursores| && rota == rotas[k]
    requires forall p :: p in rota ==> p in alvo
    requires ordem[k].currentPedido != null ==> ordem[k].currentPedido in alvo
    requires Retrato(ordem) == RodadaAte(sqrt, rotas, estados, cursores0, k).estados
    requires cursores == RodadaAte(sqrt, rotas, estados, cursores0, k).cursores
    requires estados0 == Retrato(ordem)
    modifies ordem, alvo
    ensures Retrato(ordem) == RodadaAte(sqrt, rotas, estados, cursores0, k + 1).estados
    ensures cursores[k := c'] == RodadaAte(sqrt, rotas, estados, cursores0, k + 1).cursores
    ensures ativo == PassoDrone(sqrt, estados0[k], cursores[k], rotas[k]).ativo
    ensures Estados(ps) == Aplicado(ps, old(Estados(ps)), PassoDrone(sqrt, estados0[k], cursores[k], rotas[k]).marcas)
    ensures forall j :: 0 <= j < |ordem| && j != k ==> ordem[j].currentPedido == old(ordem[j].currentPedido)
    ensures ordem[k].currentPedido != null ==> ordem[k].currentPedido in alvo
  {
    RetratoIndice(ordem);
    ghost var antes := Retrato(ordem);
    ghost var r := RodadaAte(sqrt, rotas, estados, cursores0, k);
    ghost var p := PassoDrone(sqrt, r.estados[k], r.cursores[k], rotas[k]);
    assert RodadaAte(sqrt, rotas, estados, cursores0, k + 1).estados == antes[k := p.e];
    assert EstadoDe(ordem[k]) == antes[k];
    c', ativo := AvancarDrone(sqrt, ordem[k], cursores[k], rota, ps, alvo);
    RetratoIndice(ordem);
    assert Retrato(ordem) == antes[k := EstadoDe(ordem[k])] by {
      forall j | 0 <= j < |ordem| && j != k ensures EstadoDe(ordem[j]) == antes[j] {
        assert ordem[j] != ordem[k];
      }
    }
  }

  /**
   * One pass over the plan's entries in the order `ordem`: each drone steps once, and
   * the pass reports whether any drone was active. The fleet, the cursors and the
   * orders' statuses end as `RodadaAte` says.
   */
  method Rodada(sqrt: real -> real, plan: map<Drone, seq<Pedido>>, ordem: seq<Drone>, cursores: seq<nat>,
                ghost ps: seq<Pedido>, ghost alvo: set<Pedido>)
    returns (cursores': seq<nat>, dronesAtivos: bool)
    requires forall d :: d in ordem ==> d in plan
    requires forall i, j :: 0 <= i < j < |ordem| ==> ordem[i] != ordem[j]
    requires |cursores| == |ordem|
    requires forall j, p :: 0 <= j < |ordem| && p in plan[ordem[j]] ==> p in alvo
    requires forall j :: 0 <= j < |ordem| && ordem[j].currentPedido != null ==> ordem[j].currentPedido in alvo
    modifies ordem, alvo
    ensures Retrato(ordem) == RodadaAte(sqrt, RotasDe(plan, ordem), old(Retrato(ordem)), cursores, |ordem|).estados
    ensures cursores' == RodadaAte(sqrt, RotasDe(plan, ordem), old(Retrato(ordem)), cursores, |ordem|).cursores
    ensures dronesAtivos == RodadaAte(sqrt, RotasDe(plan, ordem), old(Retrato(ordem)), cursores, |ordem|).ativo
    ensures Estados(ps) == Aplicado(ps, old(Estados(ps)), RodadaAte(sqrt, RotasDe(plan, ordem), old(Retrato(ordem)), cursores, |ordem|).marcas)
    ensures forall j :: 0 <= j < |ordem| && ordem[j].currentPedido != null ==> ordem[j].currentPedido in alvo
  {
    ghost var rotas := RotasDe(plan, ordem);
    ghost var estados := Retrato(ordem);
    cursores', dronesAtivos := cursores, false;
    var k := 0;
    while k < |ordem|
      invariant 0 <= k <= |ordem| && |cursores'| == |ordem|
      invariant Retrato(ordem) == RodadaAte(sqrt, rotas, estados, cursores, k).estados
      invariant cursores' == RodadaAte(sqrt, rotas, estados, cursores, k).cursores
      invariant dronesAtivos == RodadaAte(sqrt, rotas, estados, cursores, k).ativo
      invariant Estados(ps) == Aplicado(ps, old(Estados(ps)), RodadaAte(sqrt, rotas, estados, cursores, k).marcas)
      invariant forall j :: 0 <= j < |ordem| && ordem[j].currentPedido != null ==> ordem[j].currentPedido in alvo
    {
      var drone := ordem[k];
      var pedidosRota := plan[drone];
      ghost var r := RodadaAte(sqrt, rotas, estados, cursores, k);
      ghost var passo := PassoDrone(sqrt, r.estados[k], r.cursores[k], rotas[k]);
      assert RodadaAte(sqrt, rotas, estados, cursores, k + 1)
             == Cena(r.estados[k := passo.e], r.cursores[k := passo.cursor], r.ativo || passo.ativo, r.marcas + passo.marcas);
      var c', ativo := PassoNaFrota(sqrt, ordem, k, pedidosRota, cursores', ps, alvo, rotas, estados, cursores, Retrato(ordem));
      AplicadoConcat(ps, old(Estados(ps)), r.marcas, passo.marcas);
      cursores' := cursores'[k := c'];
      dronesAtivos := dronesAtivos || ativo;
      k := k + 1;
    }
  }

  /**
   * The stepped simulation of `plan`, whose entries are visited in the order `ordem`:
   * every cursor starts at 0 and passes run while the previous one found a drone
   * active, at most `passos` of them. The drones and the orders' statuses end as
   * `Avancar` says, and the result tells whether the last pass found no drone active.
   */
  method RunSimulationAscii(sqrt: real -> real, plan: map<Drone, seq<Pedido>>, ordem: seq<Drone>, passos: nat,
                            ghost ps: seq<Pedido>)
    returns (concluida: bool)
    requires forall d :: d in plan <==> d in ordem
    requires forall i, j :: 0 <= i < j < |ordem| ==> ordem[i] != ordem[j]
    modifies ordem, set p | p in Atribuidos(RotasDe(plan, ordem), |ordem|)
    modifies set j | 0 <= j < |ordem| && ordem[j].currentPedido != null :: ordem[j].currentPedido
    ensures Retrato(ordem) == Avancar(sqrt, RotasDe(plan, ordem), Inicio(old(Retrato(ordem))), passos).estados
    ensures concluida <==> !Avancar(sqrt, RotasDe(plan, ordem), Inicio(old(Retrato(ordem))), passos).ativo
    ensures Estados(ps) == Aplicado(ps, old(Estados(ps)), Avancar(sqrt, RotasDe(plan, ordem), Inicio(old(Retrato(ordem))), passos).marcas)
  {
    ghost var rotas := RotasDe(plan, ordem);
    ghost var alvo: set<Pedido> := (set p | p in Atribuidos(rotas, |ordem|))
      + (set j | 0 <= j < |ordem| && ordem[j].currentPedido != null :: ordem[j].currentPedido as Pedido);
    assert forall j, p :: 0 <= j < |ordem| && p in plan[ordem[j]] ==> p in alvo by {
      AtribuidosPrefixo(rotas, |ordem|);
    }
    ghost var c0 := Inicio(Retrato(ordem));
    var cursores: seq<nat> := seq(|ordem|, j => 0);
    var dronesAtivos := true;
    var n := 0;
    ghost var marcas: seq<Marca> := [];
    while dronesAtivos && n < passos
      invariant n <= passos
      invariant Avancar(sqrt, rotas, c0, n) == Cena(Retrato(ordem), cursores, dronesAtivos, marcas)
      invariant Estados(ps) == Aplicado(ps, old(Estados(ps)), marcas)
      invariant forall j :: 0 <= j < |ordem| && ordem[j].currentPedido != null ==> ordem[j].currentPedido in alvo
    {
      ghost var r := RodadaAte(sqrt, rotas, Retrato(ordem), cursores, |ordem|);
      cursores, dronesAtivos := Rodada(sqrt, plan, ordem, cursores, ps, alvo);
      AplicadoConcat(ps, old(Estados(ps)), marcas, r.marcas);
      marcas := marcas + r.marcas;
      n := n + 1;
    }
    if !dronesAtivos {
      AvancarParado(sqrt, rotas, c0, n, passos);
    }
    concluida := !dronesAtivos;
  }

  /** Once a pass finds no drone active, later passes change nothing. */
  lemma {:induction false} AvancarParado(sqrt: real -> real, rotas: seq<seq<Pedido>>, c: Cena, n: nat, m: nat)
    requires |c.estados| == |c.cursores| == |rotas| && n <= m
    requires !Avancar(sqrt, rotas, c, n).ativo
    ensures Avancar(sqrt, rotas, c, m) == Avancar(sqrt, rotas, c, n)
  {
    if n < m {
      AvancarParado(sqrt, rotas, c, n, m - 1);
    }
  }

  // ---------------------------------------------------------------------------
  // Properties of passes and runs
  // ---------------------------------------------------------------------------

  /** Every drone of the fleet is coherent with its route and cursor. */
  predicate FrotaCoerente(rotas: seq<seq<Pedido>>, estados: seq<EstadoDrone>, cursores: seq<nat>)
  {
    |estados| == |cursores| == |rotas| &&
    forall j :: 0 <= j < |rotas| ==> Coerente(estados[j], cursores[j], rotas[j])
  }

  /** A pass keeps the fleet coherent. */
  lemma {:induction false} RodadaCoerente(sqrt: real -> real, rotas: seq<seq<Pedido>>, estados: seq<EstadoDrone>, cursores: seq<nat>, k: nat)
    requires FrotaCoerente(rotas, estados, cursores) && k <= |rotas|
    ensures FrotaCoerente(rotas, RodadaAte(sqrt, rotas, estados, cursores, k).estados, RodadaAte(sqrt, rotas, estados, cursores, k).cursores)
  {
    if k > 0 {
      RodadaCoerente(sqrt, rotas, estados, cursores, k - 1);
      var r := RodadaAte(sqrt, rotas, estados, cursores, k - 1);
      var p := PassoDrone(sqrt, r.estados[k - 1], r.cursores[k - 1], rotas[k - 1]);
      PassoCoerente(sqrt, r.estados[k - 1], r.cursores[k - 1], rotas[k - 1]);
      var s := RodadaAte(sqrt, rotas, estados, cursores, k);
      assert s.estados == r.estados[k - 1 := p.e] && s.cursores == r.cursores[k - 1 := p.cursor];
      forall j | 0 <= j < |rotas| ensures Coerente(s.estados[j], s.cursores[j], rotas[j]) {
        if j != k - 1 {
          assert s.estados[j] == r.estados[j] && s.cursores[j] == r.cursores[j];
        }
      }
    }
  }

  /**
   * On a coherent fleet, the first k drones' steps find none active exactly when all of
   * them are IDLE at the end of their routes, and then they change and mark nothing.
   */
  lemma {:induction false} RodadaInativa(sqrt: real -> real, rotas: seq<seq<Pedido>>, estados: seq<EstadoDrone>, cursores: seq<nat>, k: nat)
    requires FrotaCoerente(rotas, estados, cursores) && k <= |rotas|
    ensures !RodadaAte(sqrt, rotas, estados, cursores, k).ativo <==>
            forall j :: 0 <= j < k ==> estados[j].status == IDLE && cursores[j] == |rotas[j]|
    ensures !RodadaAte(sqrt, rotas, estados, cursores, k).ativo ==>
            RodadaAte(sqrt, rotas, estados, cursores, k) == Cena(estados, cursores, false, [])
  {
    if k > 0 {
      RodadaInativa(sqrt, rotas, estados, cursores, k - 1);
      var r := RodadaAte(sqrt, rotas, estados, cursores, k - 1);
      var e, c := estados[k - 1], cursores[k - 1];
      assert r.estados[k - 1] == e && r.cursores[k - 1] == c;
      var p := PassoDrone(sqrt, e, c, rotas[k - 1]);
      PassoInativo(sqrt, e, c, rotas[k - 1]);
      assert RodadaAte(sqrt, rotas, estados, cursores, k)
             == Cena(r.estados[k - 1 := p.e], r.cursores[k - 1 := p.cursor], r.ativo || p.ativo, r.marcas + p.marcas);
      if !r.ativo && !p.ativo {
        assert r.estados[k - 1 := e] == estados;
        assert r.cursores[k - 1 := c] == cursores;
      }
    }
  }

  /** Passes keep the fleet coherent. */
  lemma {:induction false} AvancarCoerente(sqrt: real -> real, rotas: seq<seq<Pedido>>, c: Cena, n: nat)
    requires FrotaCoerente(rotas, c.estados, c.cursores)
    ensures FrotaCoerente(rotas, Avancar(sqrt, rotas, c, n).estados, Avancar(sqrt, rotas, c, n).cursores)
  {
    if n > 0 {
      AvancarCoerente(sqrt, rotas, c, n - 1);
      var a := Avancar(sqrt, rotas, c, n - 1);
      if a.ativo {
        RodadaCoerente(sqrt, rotas, a.estados, a.cursores, |rotas|);
      }
    }
  }

  /**
   * A run from a coherent fleet that has ended (a pass found no drone active) leaves
   * every drone IDLE with its cursor at the end of its route.
   */
  lemma {:induction false} AvancarConcluida(sqrt: real -> real, rotas: seq<seq<Pedido>>, estados: seq<EstadoDrone>, n: nat)
    requires FrotaCoerente(rotas, Inicio(estados).estados, Inicio(estados).cursores)
    requires !Avancar(sqrt, rotas, Inicio(estados), n).ativo
    ensures forall j :: 0 <= j < |rotas| ==>
              Avancar(sqrt, rotas, Inicio(estados), n).estados[j].status == IDLE &&
              Avancar(sqrt, rotas, Inicio(estados), n).cursores[j] == |rotas[j]|
  {
    var c := Inicio(estados);
    assert n > 0;
    var a := Avancar(sqrt, rotas, c, n - 1);
    if !a.ativo {
      AvancarConcluida(sqrt, rotas, estados, n - 1);
    } else {
      AvancarCoerente(sqrt, rotas, c, n - 1);
      RodadaInativa(sqrt, rotas, a.estados, a.cursores, |rotas|);
    }
  }

  /** A fleet as the allocation leaves it, every cursor at the start of its route, is coherent. */
  lemma InicioCoerente(rotas: seq<seq<Pedido>>, estados: seq<EstadoDrone>)
    requires |estados| == |rotas|
    requires forall j :: 0 <= j < |rotas| ==> estados[j] == EstadoApos(rotas[j])
    ensures FrotaCoerente(rotas, Inicio(estados).estados, Inicio(estados).cursores)
  {
    forall j | 0 <= j < |rotas| ensures Coerente(estados[j], 0, rotas[j]) {
      AlocacaoCoerente(rotas[j]);
    }
  }
}
