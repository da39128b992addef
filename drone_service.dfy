/**
 * The service that owns the fleet and the orders: order intake, the reset before a
 * planning cycle, and the allocation of pending orders to drones. Every method is
 * proved to do exactly what the pure planner in module Planning defines.
 */
module Service {
  import opened Enums
  import opened Options
  import opened GeoUtils
  import opened Model
  import opened Planning

  /** The orders of `ps` that are PENDENTE, in their order in `ps`. */
  ghost function FiltrarPendentes(ps: seq<Pedido>): (r: seq<Pedido>)
    reads ps
    ensures forall p :: p in r ==> p in ps && p.status == PENDENTE
    ensures forall p :: p in ps && p.status == PENDENTE ==> p in r
    ensures SemRepeticao(ps) ==> SemRepeticao(r)
  {
    if ps == [] then []
    else if ps[|ps| - 1].status == PENDENTE then FiltrarPendentes(ps[..|ps| - 1]) + [ps[|ps| - 1]]
    else FiltrarPendentes(ps[..|ps| - 1])
  }

  /** What can be observed of a drone between two planning steps. */
  datatype EstadoDrone = EstadoDrone(posX: real, posY: real, bateria: real, status: StatusDrone, pedido: Pedido?)

  ghost function EstadoDe(d: Drone): EstadoDrone
    reads d
  {
    EstadoDrone(d.posX, d.posY, d.bateriaPercent, d.status, d.currentPedido)
  }

  /** A drone just after allocation: at the base, full, and loading the first stop of its route if it got one. */
  function EstadoApos(rota: seq<Pedido>): (e: EstadoDrone)
    ensures e.posX == 0.0 && e.posY == 0.0 && e.bateria == 100.0
    ensures rota == [] <==> e.status == IDLE
    ensures rota == [] <==> e.pedido == null
    ensures rota != [] ==> e.status == CARREGANDO && e.pedido == rota[0]
  {
    if rota == [] then EstadoDrone(0.0, 0.0, 100.0, IDLE, null)
    else EstadoDrone(0.0, 0.0, 100.0, CARREGANDO, rota[0])
  }

  ghost predicate DroneAposAlocacao(d: Drone, rota: seq<Pedido>)
    reads d
  {
    EstadoDe(d) == EstadoApos(rota)
  }

  /** A drone at the base, full, IDLE and without an order. */
  ghost predicate DroneNaBase(d: Drone)
    reads d
  {
    EstadoDe(d) == EstadoApos([])
  }

  /** The observable state of each drone of `ds`, in order. */
  ghost function Retrato(ds: seq<Drone>): (r: seq<EstadoDrone>)
    reads ds
    ensures |r| == |ds|
  {
    if ds == [] then [] else Retrato(ds[..|ds| - 1]) + [EstadoDe(ds[|ds| - 1])]
  }

  lemma {:induction false} RetratoIndice(ds: seq<Drone>)
    ensures forall j :: 0 <= j < |ds| ==> Retrato(ds)[j] == EstadoDe(ds[j])
  {
    if ds != [] {
      RetratoIndice(ds[..|ds| - 1]);
    }
  }

  /** The statuses of the orders of `ps`, in order. */
  ghost function Estados(ps: seq<Pedido>): (r: seq<StatusPedido>)
    reads ps
    ensures |r| == |ps|
  {
    if ps == [] then [] else Estados(ps[..|ps| - 1]) + [ps[|ps| - 1].status]
  }

  lemma {:induction false} EstadosIndice(ps: seq<Pedido>)
    ensures forall i :: 0 <= i < |ps| ==> Estados(ps)[i] == ps[i].status
  {
    if ps != [] {
      EstadosIndice(ps[..|ps| - 1]);
    }
  }

  /** The drones of a fleet after drones 0..k-1 took `rotas[0..k-1]` and the others kept to the base. */
  function FrotaAlocada(rotas: seq<seq<Pedido>>, k: nat): (r: seq<EstadoDrone>)
    requires k <= |rotas|
  {
    seq(|rotas|, j requires 0 <= j < |rotas| => if j < k then EstadoApos(rotas[j]) else EstadoApos([]))
  }

  /** The statuses `s0` of `ps` after the orders in `marcar` are set to `s`. */
  function Marcados(ps: seq<Pedido>, s0: seq<StatusPedido>, marcar: seq<Pedido>, s: StatusPedido): (r: seq<StatusPedido>)
    requires |s0| == |ps|
  {
    seq(|ps|, i requires 0 <= i < |ps| => if ps[i] in marcar then s else s0[i])
  }

  /** Marking nothing changes nothing. */
  lemma MarcadosVazio(ps: seq<Pedido>, s0: seq<StatusPedido>, s: StatusPedido)
    requires |s0| == |ps|
    ensures Marcados(ps, s0, [], s) == s0
  {
  }

  /** Marking in two rounds is marking everything at once. */
  lemma MarcadosDuas(ps: seq<Pedido>, s0: seq<StatusPedido>, a: seq<Pedido>, b: seq<Pedido>, s: StatusPedido)
    requires |s0| == |ps|
    ensures Marcados(ps, Marcados(ps, s0, a, s), b, s) == Marcados(ps, s0, a + b, s)
  {
  }

  /**
   * The statuses `s0` of `ps` once a planning cycle has allocated `alocados`: a PENDENTE
   * order becomes ALOCADO when allocated and NAO_ATENDIDO otherwise. Afterwards no order
   * is PENDENTE, and an order that was not PENDENTE keeps its status.
   */
  function Reclassificados(ps: seq<Pedido>, s0: seq<StatusPedido>, alocados: seq<Pedido>): (r: seq<StatusPedido>)
    requires |s0| == |ps|
    ensures |r| == |ps|
    ensures forall i :: 0 <= i < |ps| ==> r[i] != PENDENTE
    ensures forall i :: 0 <= i < |ps| && s0[i] != PENDENTE ==> r[i] == s0[i]
    ensures forall i :: 0 <= i < |ps| && s0[i] == PENDENTE ==> (r[i] == ALOCADO <==> ps[i] in alocados)
    ensures forall i :: 0 <= i < |ps| && s0[i] == PENDENTE && ps[i] !in alocados ==> r[i] == NAO_ATENDIDO
  {
    seq(|ps|, i requires 0 <= i < |ps| =>
      if s0[i] != PENDENTE then s0[i] else if ps[i] in alocados then ALOCADO else NAO_ATENDIDO)
  }

  /**
   * Marking the allocated orders ALOCADO and then the pending ones nobody took NAO_ATENDIDO
   * is the reclassification of a planning cycle, when exactly the PENDENTE orders are pending
   * and only pending orders are allocated.
   */
  lemma MarcacaoReclassifica(ps: seq<Pedido>, s0: seq<StatusPedido>, alocados: seq<Pedido>,
                             pendentes: seq<Pedido>, restantes: seq<Pedido>)
    requires |s0| == |ps|
    requires forall i :: 0 <= i < |ps| ==> (ps[i] in pendentes <==> s0[i] == PENDENTE)
    requires forall p :: p in alocados ==> p in pendentes
    requires forall p :: p in restantes <==> p in pendentes && p !in alocados
    ensures Marcados(ps, Marcados(ps, s0, alocados, ALOCADO), restantes, NAO_ATENDIDO)
         == Reclassificados(ps, s0, alocados)
  {
  }

  /**
   * The statuses after a planning cycle's two markings (the allocation's orders ALOCADO,
   * then the orders it left NAO_ATENDIDO) are the reclassification by that allocation.
   */
  lemma FechoDaReclassificacao(sqrt: real -> real, frota: seq<Drone>, pendentes: seq<Pedido>, ps: seq<Pedido>,
                               s0: seq<StatusPedido>, s1: seq<StatusPedido>, s2: seq<StatusPedido>,
                               restantes: seq<Pedido>)
    requires |s0| == |ps| == |s1|
    requires forall i :: 0 <= i < |ps| ==> (ps[i] in pendentes <==> s0[i] == PENDENTE)
    requires var A := Alocar(sqrt, frota, pendentes);
      && s1 == Marcados(ps, s0, Atribuidos(A.rotas, |frota|), ALOCADO)
      && restantes == Excluindo(pendentes, Atribuidos(A.rotas, |frota|))
      && s2 == Marcados(ps, s1, restantes, NAO_ATENDIDO)
    ensures s2 == Reclassificados(ps, s0, Atribuidos(Alocar(sqrt, frota, pendentes).rotas, |frota|))
  {
    var alocados := Atribuidos(Alocar(sqrt, frota, pendentes).rotas, |frota|);
    AlocarGarantias(sqrt, frota, pendentes);
    ExcluindoMembros(pendentes, alocados);
    MarcacaoReclassifica(ps, s0, alocados, pendentes, restantes);
  }

  /** Every drone of `frota` with an empty route. */
  function PlanoVazio(frota: seq<Drone>): map<Drone, seq<Pedido>>
  {
    if frota == [] then map[] else PlanoVazio(frota[..|frota| - 1])[frota[|frota| - 1] := []]
  }

  /** The empty plan has exactly the fleet's drones as keys, each with an empty route. */
  lemma {:induction false} PlanoVazioCorreto(frota: seq<Drone>)
    ensures PlanoVazio(frota).Keys == set d | d in frota
    ensures forall d :: d in frota ==> PlanoVazio(frota)[d] == []
  {
    if frota != [] {
      var ini := frota[..|frota| - 1];
      PlanoVazioCorreto(ini);
      assert frota == ini + [frota[|frota| - 1]];
    }
  }

  /** The empty plan after drone j took route j, for each j < k. */
  function Plano(frota: seq<Drone>, rotas: seq<seq<Pedido>>, k: nat): map<Drone, seq<Pedido>>
    requires k <= |frota| == |rotas|
  {
    if k == 0 then PlanoVazio(frota) else Plano(frota, rotas, k - 1)[frota[k - 1] := rotas[k - 1]]
  }

  /** With distinct drones, the drones from k on still have empty routes. */
  lemma {:induction false} PlanoAdiante(frota: seq<Drone>, rotas: seq<seq<Pedido>>, k: nat, j: nat)
    requires k <= j < |frota| == |rotas|
    requires forall a, b :: 0 <= a < b < |frota| ==> frota[a] != frota[b]
    ensures frota[j] in Plano(frota, rotas, k) && Plano(frota, rotas, k)[frota[j]] == []
  {
    if k > 0 {
      PlanoAdiante(frota, rotas, k - 1, j);
    } else {
      PlanoVazioCorreto(frota);
    }
  }

  /** With distinct drones, drone j < k has route j, and the plan's keys are the fleet's drones. */
  lemma {:induction false} PlanoAtras(frota: seq<Drone>, rotas: seq<seq<Pedido>>, k: nat)
    requires k <= |frota| == |rotas|
    requires forall a, b :: 0 <= a < b < |frota| ==> frota[a] != frota[b]
    ensures forall j :: 0 <= j < k ==> frota[j] in Plano(frota, rotas, k) && Plano(frota, rotas, k)[frota[j]] == rotas[j]
    ensures Plano(frota, rotas, k).Keys == set d | d in frota
  {
    if k > 0 {
      PlanoAtras(frota, rotas, k - 1);
    } else {
      PlanoVazioCorreto(frota);
    }
  }

  /** Sets the status of every order of `ps` to `s`. */
  method DefinirStatus(ps: seq<Pedido>, s: StatusPedido)
    modifies set p | p in ps
    ensures forall p :: p in ps ==> p.status == s
  {
    var i := 0;
    while i < |ps|
      invariant 0 <= i <= |ps|
      invariant forall k :: 0 <= k < i ==> ps[k].status == s
    {
      ps[i].SetStatus(s);
      i := i + 1;
    }
  }

  /** Drone ids are distinct and below the next id to be issued. */
  predicate IdsValidos(ds: seq<Drone>, proximo: int)
  {
    && (forall i, j :: 0 <= i < j < |ds| ==> ds[i].id != ds[j].id)
    && (forall i :: 0 <= i < |ds| ==> ds[i].id < proximo)
  }

  class DroneService {
    var drones: seq<Drone>
    var pedidos: seq<Pedido>
    /** Which drone serves each allocated order. */
    var droneDoPedido: map<Pedido, Drone>
    /** The source of drone ids. */
    const ids: DroneIds

    /** Drone ids are distinct and below the next id to be issued; no order is listed twice. */
    ghost predicate Valid()
      reads this, ids
    {
      IdsValidos(drones, ids.next) && SemRepeticao(pedidos)
    }

    ghost function Frota(): set<Drone>
      reads this
    {
      set d | d in drones
    }

    ghost function Pedidos(): set<Pedido>
      reads this
    {
      set p | p in pedidos
    }

    /** The default fleet, with no orders. */
    constructor (ids: DroneIds)
      modifies ids
      ensures Valid() && this.ids == ids
      ensures pedidos == [] && droneDoPedido == map[] && |drones| == 5
      ensures drones[0].capacidadeKg == 10.0 && drones[0].alcanceKm == 100.0
      ensures drones[1].capacidadeKg == 12.0 && drones[1].alcanceKm == 120.0
      ensures drones[2].capacidadeKg == 8.0 && drones[2].alcanceKm == 80.0
      ensures drones[3].capacidadeKg == 15.0 && drones[3].alcanceKm == 150.0
      ensures drones[4].capacidadeKg == 9.0 && drones[4].alcanceKm == 90.0
      ensures forall d :: d in drones ==> fresh(d) && DroneNaBase(d)
    {
      this.ids := ids;
      var d1 := new Drone(ids, 10.0, 100.0, 0.0, 0.0);
      var d2 := new Drone(ids, 12.0, 120.0, 0.0, 0.0);
      var d3 := new Drone(ids, 8.0, 80.0, 0.0, 0.0);
      var d4 := new Drone(ids, 15.0, 150.0, 0.0, 0.0);
      var d5 := new Drone(ids, 9.0, 90.0, 0.0, 0.0);
      drones := [d1, d2, d3, d4, d5];
      pedidos := [];
      droneDoPedido := map[];
    }

    /** Every order back to PENDENTE, every drone to the base, full and IDLE; no order is removed. */
    method ResetPedidos()
      requires Valid()
      modifies this, Frota(), Pedidos()
      ensures Valid()
      ensures drones == old(drones) && pedidos == old(pedidos) && droneDoPedido == map[]
      ensures forall p :: p in pedidos ==> p.status == PENDENTE
      ensures forall d :: d in drones ==> DroneNaBase(d)
    {
      DefinirStatus(pedidos, PENDENTE);
      var i := 0;
      while i < |drones|
        invariant 0 <= i <= |drones|
        invariant drones == old(drones) && pedidos == old(pedidos)
        invariant forall p :: p in pedidos ==> p.status == PENDENTE
        invariant forall k :: 0 <= k < i ==> DroneNaBase(drones[k])
      {
        drones[i].RecarregarPosicao();
        drones[i].Recarregar();
        i := i + 1;
      }
      droneDoPedido := map[];
    }

    /** Adds a drone to the fleet, with the next id. */
    method CriarDrone(capacidadeKg: real, alcanceKm: real, x: real, y: real) returns (d: Drone)
      requires Valid()
      modifies this, ids
      ensures Valid()
      ensures fresh(d) && drones == old(drones) + [d] && d.id == old(ids.next)
      ensures d.capacidadeKg == capacidadeKg && d.alcanceKm == alcanceKm && d.posX == x && d.posY == y
      ensures d.bateriaPercent == 100.0 && d.status == IDLE && d.currentPedido == null
      ensures pedidos == old(pedidos) && droneDoPedido == old(droneDoPedido)
    {
      d := new Drone(ids, capacidadeKg, alcanceKm, x, y);
      drones := drones + [d];
    }

    /**
     * Creates a PENDENTE order, or rejects it (null) when it is heavier than PESO_MAXIMO.
     * `uuid` and `timestamp` stand for the random id and the clock reading.
     */
    method CriarPedido(x: real, y: real, pesoKg: real, prioridade: Prioridade, uuid: string, timestamp: int)
      returns (p: Pedido?)
      requires Valid()
      modifies this
      ensures Valid()
      ensures p == null <==> pesoKg > PESO_MAXIMO
      ensures p == null ==> pedidos == old(pedidos)
      ensures p != null ==>
        && fresh(p) && pedidos == old(pedidos) + [p] && p.status == PENDENTE
        && p.x == x && p.y == y && p.pesoKg == pesoKg && p.prioridade == prioridade
        && p.id == uuid && p.dataChegadaTimestamp == timestamp
      ensures drones == old(drones) && droneDoPedido == old(droneDoPedido)
    {
      if pesoKg > PESO_MAXIMO {
        return null;
      }
      p := new Pedido(uuid, x, y, pesoKg, prioridade, timestamp);
      pedidos := pedidos + [p];
    }

    /** The orders mapped to a drone with `d`'s id, in planning order. */
    method GetPedidosDoDrone(d: Drone) returns (list: seq<Pedido>)
      ensures multiset(list) == multiset(set p | p in droneDoPedido && droneDoPedido[p].id == d.id)
      ensures Ordenada(list)
    {
      var restantes := droneDoPedido.Keys;
      list := [];
      while restantes != {}
        invariant restantes <= droneDoPedido.Keys
        invariant multiset(list) == multiset(set p | p in droneDoPedido.Keys - restantes && droneDoPedido[p].id == d.id)
        decreases restantes
      {
        var p :| p in restantes;
        ghost var antes := set q | q in droneDoPedido.Keys - restantes && droneDoPedido[q].id == d.id;
        if droneDoPedido[p].id == d.id {
          assert (set q | q in droneDoPedido.Keys - (restantes - {p}) && droneDoPedido[q].id == d.id) == antes + {p};
          list := list + [p];
        } else {
          assert (set q | q in droneDoPedido.Keys - (restantes - {p}) && droneDoPedido[q].id == d.id) == antes;
        }
        restantes := restantes - {p};
      }
      OrdenarPorPrioridadeCorreta(list);
      list := OrdenarPorPrioridade(list);
    }

    /** Checks weight against capacity, then the round trip base -> stops -> base against range. */
    static method ValidarRota(sqrt: real -> real, drone: Drone, rota: seq<Pedido>) returns (ok: bool)
      ensures ok == RotaValida(sqrt, drone, rota)
    {
      var pesoTotal := PesoTotal(rota);
      if pesoTotal > drone.capacidadeKg {
        return false;
      }
      var distanciaTotal := 0.0;
      var atualX := 0.0;
      var atualY := 0.0;
      var i := 0;
      while i < |rota|
        invariant 0 <= i <= |rota|
        invariant distanciaTotal == Percurso(sqrt, rota[..i])
        invariant (atualX, atualY) == Fim(rota[..i])
      {
        var p := rota[i];
        assert rota[..i + 1][..i] == rota[..i];
        distanciaTotal := distanciaTotal + DistanciaKm(sqrt, atualX, atualY, p.x, p.y);
        atualX := p.x;
        atualY := p.y;
        i := i + 1;
      }
      assert rota[..i] == rota;
      distanciaTotal := distanciaTotal + DistanciaKm(sqrt, atualX, atualY, 0.0, 0.0);
      ok := distanciaTotal <= drone.alcanceKm;
    }

    /** First attempt: the first triple (in i, j, k order) whose route fits. */
    static method BuscarTrio(sqrt: real -> real, drone: Drone, disponiveis: seq<Pedido>) returns (t: Option<(nat, nat, nat)>)
      ensures t == BuscaTrio(sqrt, drone, disponiveis, 0, 1, 2)
    {
      var n := |disponiveis|;
      var i := 0;
      while i < n
        invariant 0 <= i <= n
        invariant BuscaTrio(sqrt, drone, disponiveis, 0, 1, 2) == BuscaTrio(sqrt, drone, disponiveis, i, i + 1, i + 2)
      {
        var j := i + 1;
        while j < n
          invariant i + 1 <= j <= n
          invariant BuscaTrio(sqrt, drone, disponiveis, 0, 1, 2) == BuscaTrio(sqrt, drone, disponiveis, i, j, j + 1)
        {
          var k := j + 1;
          while k < n
            invariant j + 1 <= k <= n
            invariant BuscaTrio(sqrt, drone, disponiveis, 0, 1, 2) == BuscaTrio(sqrt, drone, disponiveis, i, j, k)
          {
            var ok := ValidarRota(sqrt, drone, [disponiveis[i], disponiveis[j], disponiveis[k]]);
            if ok {
              return Some((i, j, k));
            }
            k := k + 1;
          }
          j := j + 1;
        }
        i := i + 1;
      }
      return None;
    }

    /** Second attempt: every pair is tried, and only the first that fits is kept. */
    static method BuscarPar(sqrt: real -> real, drone: Drone, disponiveis: seq<Pedido>) returns (t: Option<(nat, nat)>)
      ensures t == BuscaPar(sqrt, drone, disponiveis, 0, 1)
    {
      var n := |disponiveis|;
      t := None;
      var i := 0;
      while i < n
        invariant 0 <= i <= n
        invariant t.None? ==> BuscaPar(sqrt, drone, disponiveis, 0, 1) == BuscaPar(sqrt, drone, disponiveis, i, i + 1)
        invariant t.Some? ==> t == BuscaPar(sqrt, drone, disponiveis, 0, 1)
      {
        var j := i + 1;
        while j < n
          invariant i + 1 <= j <= n
          invariant t.None? ==> BuscaPar(sqrt, drone, disponiveis, 0, 1) == BuscaPar(sqrt, drone, disponiveis, i, j)
          invariant t.Some? ==> t == BuscaPar(sqrt, drone, disponiveis, 0, 1)
        {
          var ok := ValidarRota(sqrt, drone, [disponiveis[i], disponiveis[j]]);
          if ok && t.None? {
            t := Some((i, j));
          }
          j := j + 1;
        }
        i := i + 1;
      }
    }

    /** Third attempt: the first single order that fits. */
    static method BuscarUm(sqrt: real -> real, drone: Drone, disponiveis: seq<Pedido>) returns (t: Option<nat>)
      ensures t == BuscaUm(sqrt, drone, disponiveis, 0)
    {
      var n := |disponiveis|;
      t := None;
      var i := 0;
      while i < n
        invariant 0 <= i <= n
        invariant BuscaUm(sqrt, drone, disponiveis, 0) == BuscaUm(sqrt, drone, disponiveis, i)
      {
        var ok := ValidarRota(sqrt, drone, [disponiveis[i]]);
        if ok {
          t := Some(i);
          break;
        }
        i := i + 1;
      }
    }

    /** First fit over `disponiveis`: a triple, else a pair, else a single, else nothing. */
    static method BuscarMelhorCombinacao(sqrt: real -> real, drone: Drone, disponiveis: seq<Pedido>)
      returns (melhorRota: seq<Pedido>)
      ensures melhorRota == MelhorCombinacao(sqrt, drone, disponiveis)
    {
      var trio := BuscarTrio(sqrt, drone, disponiveis);
      if trio.Some? {
        return [disponiveis[trio.value.0], disponiveis[trio.value.1], disponiveis[trio.value.2]];
      }
      var par := BuscarPar(sqrt, drone, disponiveis);
      if par.Some? {
        return [disponiveis[par.value.0], disponiveis[par.value.1]];
      }
      var um := BuscarUm(sqrt, drone, disponiveis);
      if um.Some? {
        return [disponiveis[um.value]];
      }
      return [];
    }

    /** Records `melhor` as `d`'s route: each order is appended, mapped to `d` and marked ALOCADO. */
    static method RegistrarRota(d: Drone, rota: seq<Pedido>, dono: map<Pedido, Drone>, melhor: seq<Pedido>)
      returns (novaRota: seq<Pedido>, novoDono: map<Pedido, Drone>)
      modifies set p | p in melhor
      ensures novaRota == rota + melhor
      ensures novoDono == dono + (map p | p in melhor :: d)
      ensures forall p :: p in melhor ==> p.status == ALOCADO
    {
      novaRota, novoDono := rota, dono;
      var m := 0;
      while m < |melhor|
        invariant 0 <= m <= |melhor|
        invariant novaRota == rota + melhor[..m]
        invariant novoDono == dono + (map p | p in melhor[..m] :: d)
        invariant forall p :: p in melhor[..m] ==> p.status == ALOCADO
      {
        var p := melhor[m];
        assert melhor[..m + 1] == melhor[..m] + [p];
        novaRota := novaRota + [p];
        novoDono := novoDono[p := d];
        p.SetStatus(ALOCADO);
        m := m + 1;
      }
      assert melhor[..m] == melhor;
    }

    /** The PENDENTE orders, in list order. */
    static method ColetarPendentes(ps: seq<Pedido>) returns (pendentes: seq<Pedido>)
      ensures pendentes == FiltrarPendentes(ps)
    {
      pendentes := [];
      var i := 0;
      while i < |ps|
        invariant 0 <= i <= |ps|
        invariant pendentes == FiltrarPendentes(ps[..i])
      {
        assert ps[..i + 1][..i] == ps[..i];
        if ps[i].status == PENDENTE {
          pendentes := pendentes + [ps[i]];
        }
        i := i + 1;
      }
      assert ps[..i] == ps;
    }

    /** Every drone gets an empty route and is reset to the base. */
    static method PrepararFrota(frota: seq<Drone>) returns (plan: map<Drone, seq<Pedido>>)
      modifies set d | d in frota
      ensures plan == PlanoVazio(frota)
      ensures forall j :: 0 <= j < |frota| ==> DroneNaBase(frota[j])
    {
      plan := map[];
      var i := 0;
      while i < |frota|
        invariant 0 <= i <= |frota|
        invariant plan == PlanoVazio(frota[..i])
        invariant forall j :: 0 <= j < i ==> DroneNaBase(frota[j])
      {
        var d := frota[i];
        assert frota[..i + 1][..i] == frota[..i];
        plan := plan[d := []];
        d.RecarregarPosicao();
        d.Recarregar();
        i := i + 1;
      }
      assert frota[..i] == frota;
    }

    /**
     * Drone k's turn in the allocation loop. `pendentes` is what drones 0..k-1 left of
     * the sorted list; an IDLE drone takes its first-fit route from it. The route goes
     * into the plan and the order-to-drone map, its orders become ALOCADO and leave
     * `pendentes`, and the drone starts loading the first of them.
     */
    static method TurnoDrone(sqrt: real -> real, frota: seq<Drone>, k: nat, plan: map<Drone, seq<Pedido>>, dono: map<Pedido, Drone>,
                      pendentes: seq<Pedido>, ghost ordenados: seq<Pedido>, ghost rotas: seq<seq<Pedido>>)
      returns (plan': map<Drone, seq<Pedido>>, dono': map<Pedido, Drone>, pendentes': seq<Pedido>)
      requires EscolhasPrimeiroAjuste(sqrt, frota, ordenados, rotas)
      requires k < |frota| && frota[k] in plan && plan[frota[k]] == [] && DroneNaBase(frota[k])
      requires pendentes == Excluindo(ordenados, Atribuidos(rotas, k))
      modifies frota[k], set p | p in rotas[k]
      ensures plan' == plan[frota[k] := rotas[k]]
      ensures dono' == dono + (map p | p in rotas[k] :: frota[k])
      ensures pendentes' == Excluindo(ordenados, Atribuidos(rotas, k + 1))
      ensures forall p :: p in rotas[k] ==> p.status == ALOCADO
      ensures DroneAposAlocacao(frota[k], rotas[k])
    {
      EscolhaDe(sqrt, frota, ordenados, rotas, |frota|, k);
      var d := frota[k];
      ghost var rota := rotas[k];
      ExcluindoDuas(ordenados, Atribuidos(rotas, k), rota);
      plan', dono', pendentes' := plan, dono, pendentes;
      if d.status == IDLE {
        var melhorRota := BuscarMelhorCombinacao(sqrt, d, pendentes);
        assert melhorRota == rota;
        if melhorRota != [] {
          var rotaDoDrone;
          rotaDoDrone, dono' := RegistrarRota(d, plan[d], dono, melhorRota);
          assert rotaDoDrone == [] + rota == rota;
          plan' := plan[d := rotaDoDrone];
          d.AssignPedido(melhorRota[0]);
          pendentes' := Excluindo(pendentes, melhorRota);
        } else {
          ExcluindoVazio(pendentes);
          assert plan[d := []] == plan;
          assert dono + (map p | p in rota :: d) == dono;
        }
      }
    }

    /** One iteration of the allocation loop: drone k's turn, seen on the whole fleet and order list. */
    static method PassoAlocacao(sqrt: real -> real, frota: seq<Drone>, ghost ps: seq<Pedido>, k: nat, plan: map<Drone, seq<Pedido>>, dono: map<Pedido, Drone>,
                         restantes: seq<Pedido>, ghost ordenados: seq<Pedido>, ghost rotas: seq<seq<Pedido>>)
      returns (plan': map<Drone, seq<Pedido>>, dono': map<Pedido, Drone>, restantes': seq<Pedido>)
      requires EscolhasPrimeiroAjuste(sqrt, frota, ordenados, rotas)
      requires forall i, j :: 0 <= i < j < |frota| ==> frota[i] != frota[j]
      requires k < |frota| && frota[k] in plan && plan[frota[k]] == []
      requires Retrato(frota) == FrotaAlocada(rotas, k)
      requires restantes == Excluindo(ordenados, Atribuidos(rotas, k))
      modifies frota, ordenados
      ensures plan' == plan[frota[k] := rotas[k]]
      ensures dono' == dono + (map p | p in rotas[k] :: frota[k])
      ensures restantes' == Excluindo(ordenados, Atribuidos(rotas, k + 1))
      ensures Retrato(frota) == FrotaAlocada(rotas, k + 1)
      ensures Estados(ps) == Marcados(ps, old(Estados(ps)), rotas[k], ALOCADO)
    {
      EscolhaContida(sqrt, frota, ordenados, rotas, k);
      assert forall p :: p in rotas[k] ==> p in ordenados;
      assert frota[k] in frota;
      RetratoIndice(frota);
      EstadosIndice(ps);
      assert DroneNaBase(frota[k]) by {
        assert Retrato(frota)[k] == FrotaAlocada(rotas, k)[k];
      }
      ghost var frota0 := Retrato(frota);
      ghost var status0 := Estados(ps);
      plan', dono', restantes' := TurnoDrone(sqrt, frota, k, plan, dono, restantes, ordenados, rotas);
      RetratoIndice(frota);
      EstadosIndice(ps);
      assert Retrato(frota) == FrotaAlocada(rotas, k + 1) by {
        forall j | 0 <= j < |frota|
          ensures Retrato(frota)[j] == FrotaAlocada(rotas, k + 1)[j]
        {
          if j != k {
            assert frota[j] != frota[k];
            assert frota0[j] == FrotaAlocada(rotas, k)[j];
          }
        }
      }
      assert Estados(ps) == Marcados(ps, status0, rotas[k], ALOCADO) by {
        forall i | 0 <= i < |ps|
          ensures Estados(ps)[i] == Marcados(ps, status0, rotas[k], ALOCADO)[i]
        {
          assert status0[i] == old(ps[i].status);
        }
      }
    }

    /**
     * The allocation loop: each IDLE drone, in fleet order, takes its first-fit route from
     * what earlier drones left of `ordenados`; `rotas` are those routes. The plan gives each
     * drone its route, the order-to-drone map sends each allocated order to its drone, the
     * orders nobody took are returned, drones end as `FrotaAlocada` says and exactly the
     * allocated orders become ALOCADO.
     */
    static method AlocarFrota(sqrt: real -> real, frota: seq<Drone>, ghost ps: seq<Pedido>, plan0: map<Drone, seq<Pedido>>, ordenados: seq<Pedido>, ghost rotas: seq<seq<Pedido>>)
      returns (plan: map<Drone, seq<Pedido>>, dono: map<Pedido, Drone>, restantes: seq<Pedido>)
      requires EscolhasPrimeiroAjuste(sqrt, frota, ordenados, rotas)
      requires forall i, j :: 0 <= i < j < |frota| ==> frota[i] != frota[j]
      requires plan0 == PlanoVazio(frota)
      requires Retrato(frota) == FrotaAlocada(rotas, 0)
      modifies frota, ordenados
      ensures restantes == Excluindo(ordenados, Atribuidos(rotas, |rotas|))
      ensures plan == Plano(frota, rotas, |frota|)
      ensures Retrato(frota) == FrotaAlocada(rotas, |rotas|)
      ensures Estados(ps) == Marcados(ps, old(Estados(ps)), Atribuidos(rotas, |rotas|), ALOCADO)
      ensures dono == DonoDe(frota, rotas, |rotas|)
    {
      ExcluindoVazio(ordenados);
      MarcadosVazio(ps, Estados(ps), ALOCADO);
      plan, dono, restantes := plan0, map[], ordenados;
      var k := 0;
      while k < |frota|
        invariant 0 <= k <= |frota|
        invariant restantes == Excluindo(ordenados, Atribuidos(rotas, k))
        invariant plan == Plano(frota, rotas, k)
        invariant Retrato(frota) == FrotaAlocada(rotas, k)
        invariant Estados(ps) == Marcados(ps, old(Estados(ps)), Atribuidos(rotas, k), ALOCADO)
        invariant dono == DonoDe(frota, rotas, k)
      {
        PlanoAdiante(frota, rotas, k, k);
        plan, dono, restantes := PassoAlocacao(sqrt, frota, ps, k, plan, dono, restantes, ordenados, rotas);
        MarcadosDuas(ps, old(Estados(ps)), Atribuidos(rotas, k), rotas[k], ALOCADO);
        k := k + 1;
      }
    }

    /**
     * Steps 3 and 4 of a planning cycle over the reset fleet: the allocation loop over the
     * pending list, then every order nobody took becomes NAO_ATENDIDO. The plan, the
     * order-to-drone map and the drones are those of the planner's allocation `Alocar`, and
     * the statuses of `ps` are reclassified by it.
     */
    static method ConcluirAlocacao(sqrt: real -> real, frota: seq<Drone>, ghost ps: seq<Pedido>,
                                   plan0: map<Drone, seq<Pedido>>, pendentes: seq<Pedido>)
      returns (plan: map<Drone, seq<Pedido>>, dono: map<Pedido, Drone>)
      requires forall i, j :: 0 <= i < j < |frota| ==> frota[i] != frota[j]
      requires plan0 == PlanoVazio(frota)
      requires forall j :: 0 <= j < |frota| ==> DroneNaBase(frota[j])
      requires forall i :: 0 <= i < |ps| ==> (ps[i] in pendentes <==> ps[i].status == PENDENTE)
      modifies frota, pendentes
      ensures var A := Alocar(sqrt, frota, pendentes);
        && plan == Plano(frota, A.rotas, |frota|)
        && dono == DonoDe(frota, A.rotas, |frota|)
        && Retrato(frota) == FrotaAlocada(A.rotas, |frota|)
        && Estados(ps) == Reclassificados(ps, old(Estados(ps)), Atribuidos(A.rotas, |frota|))
    {
      ghost var status0 := Estados(ps);
      EstadosIndice(ps);
      var restantes;
      plan, dono, restantes := AtribuirRotas(sqrt, frota, ps, plan0, pendentes);
      ghost var status1 := Estados(ps);
      // Whatever is left is not served.
      MarcarNaoAtendidos(ps, restantes);
      FechoDaReclassificacao(sqrt, frota, pendentes, ps, status0, status1, Estados(ps), restantes);
    }

    /**
     * Step 3 of a planning cycle over the reset fleet: the allocation loop run on the
     * routes of the planner's allocation `Alocar`. The orders nobody took are returned.
     */
    static method AtribuirRotas(sqrt: real -> real, frota: seq<Drone>, ghost ps: seq<Pedido>,
                                plan0: map<Drone, seq<Pedido>>, pendentes: seq<Pedido>)
      returns (plan: map<Drone, seq<Pedido>>, dono: map<Pedido, Drone>, restantes: seq<Pedido>)
      requires forall i, j :: 0 <= i < j < |frota| ==> frota[i] != frota[j]
      requires plan0 == PlanoVazio(frota)
      requires forall j :: 0 <= j < |frota| ==> DroneNaBase(frota[j])
      modifies frota, pendentes
      ensures var A := Alocar(sqrt, frota, pendentes);
        && plan == Plano(frota, A.rotas, |frota|)
        && dono == DonoDe(frota, A.rotas, |frota|)
        && Retrato(frota) == FrotaAlocada(A.rotas, |frota|)
        && Estados(ps) == Marcados(ps, old(Estados(ps)), Atribuidos(A.rotas, |frota|), ALOCADO)
        && restantes == Excluindo(pendentes, Atribuidos(A.rotas, |frota|))
      ensures forall p :: p in restantes ==> p in pendentes
    {
      ghost var A := Alocar(sqrt, frota, pendentes);
      assert |A.rotas| == |frota|;
      assert EscolhasPrimeiroAjuste(sqrt, frota, pendentes, A.rotas) by {
        AlocarFormaFechada(sqrt, frota, pendentes);
      }
      assert Retrato(frota) == FrotaAlocada(A.rotas, 0) by {
        RetratoIndice(frota);
      }
      plan, dono, restantes := AlocarFrota(sqrt, frota, ps, plan0, pendentes, A.rotas);
      ExcluindoMembros(pendentes, Atribuidos(A.rotas, |frota|));
    }

    /** Marks `restantes` NAO_ATENDIDO; every other order of `ps` keeps its status. */
    static method MarcarNaoAtendidos(ghost ps: seq<Pedido>, restantes: seq<Pedido>)
      modifies set p | p in restantes
      ensures Estados(ps) == Marcados(ps, old(Estados(ps)), restantes, NAO_ATENDIDO)
    {
      EstadosIndice(ps);
      ghost var status0 := Estados(ps);
      DefinirStatus(restantes, NAO_ATENDIDO);
      EstadosIndice(ps);
      forall i | 0 <= i < |ps|
        ensures Estados(ps)[i] == Marcados(ps, status0, restantes, NAO_ATENDIDO)[i]
      {
        assert status0[i] == old(ps[i].status);
      }
    }

    /**
     * A planning cycle over the fleet `frota` and the order list `ps`: every drone gets an
     * empty route and is reset; the PENDENTE orders are sorted and each drone in fleet order
     * takes its first-fit route from what is left. The plan, the order-to-drone map and the
     * drones end as the planner's allocation `Alocar` of the sorted pending orders says, and
     * the statuses of `ps` are reclassified by it.
     */
    static method CicloDePlanejamento(sqrt: real -> real, frota: seq<Drone>, ps: seq<Pedido>)
      returns (plan: map<Drone, seq<Pedido>>, dono: map<Pedido, Drone>)
      requires forall i, j :: 0 <= i < j < |frota| ==> frota[i] != frota[j]
      modifies set d | d in frota, set p | p in ps
      ensures var A := Alocar(sqrt, frota, OrdenarPorPrioridade(old(FiltrarPendentes(ps))));
        && plan == Plano(frota, A.rotas, |frota|)
        && dono == DonoDe(frota, A.rotas, |frota|)
        && Retrato(frota) == FrotaAlocada(A.rotas, |frota|)
        && Estados(ps) == Reclassificados(ps, old(Estados(ps)), Atribuidos(A.rotas, |frota|))
    {
      plan := PrepararFrota(frota);

      // The PENDENTE orders, by priority and then arrival.
      var pendentes := ColetarPendentes(ps);
      assert pendentes == old(FiltrarPendentes(ps));
      OrdenarPorPrioridadeCorreta(pendentes);
      ghost var pend0 := pendentes;
      pendentes := OrdenarPorPrioridade(pendentes);
      assert forall p :: p in pendentes <==> p in pend0 by {
        assert forall p :: p in pendentes <==> p in multiset(pend0);
      }
      assert forall i :: 0 <= i < |ps| ==> (ps[i] in pendentes <==> ps[i].status == PENDENTE);
      assert Estados(ps) == old(Estados(ps)) by {
        EstadosIndice(ps);
      }
      plan, dono := ConcluirAlocacao(sqrt, frota, ps, plan, pendentes);
    }

    /**
     * One planning cycle over the service's fleet and orders (`CicloDePlanejamento`); the
     * order-to-drone map is replaced by the one the cycle builds.
     */
    method AlocarPedidos(sqrt: real -> real) returns (plan: map<Drone, seq<Pedido>>)
      requires Valid()
      modifies this, Frota(), Pedidos()
      ensures Valid()
      ensures drones == old(drones) && pedidos == old(pedidos)
      ensures var A := Alocar(sqrt, drones, OrdenarPorPrioridade(old(FiltrarPendentes(pedidos))));
        && plan == Plano(drones, A.rotas, |drones|)
        && droneDoPedido == DonoDe(drones, A.rotas, |drones|)
        && Retrato(drones) == FrotaAlocada(A.rotas, |drones|)
        && Estados(pedidos) == Reclassificados(pedidos, old(Estados(pedidos)), Atribuidos(A.rotas, |drones|))
    {
      assert forall i, j :: 0 <= i < j < |drones| ==> drones[i] != drones[j];
      var dono;
      plan, dono := CicloDePlanejamento(sqrt, drones, pedidos);
      droneDoPedido := dono;
    }

    /**
     * The number of orders of each drone's route, keyed by drone id; `ordem` is the order
     * in which the plan's entries are visited. When two drones share an id, the one
     * visited last wins.
     */
    static method EntregasPorDrone(plan: map<Drone, seq<Pedido>>, ordem: seq<Drone>) returns (result: map<int, int>)
      requires forall d :: d in ordem ==> d in plan
      ensures result.Keys == set d | d in ordem :: d.id
      ensures forall k :: 0 <= k < |ordem| && (forall j :: k < j < |ordem| ==> ordem[j].id != ordem[k].id) ==>
        result[ordem[k].id] == |plan[ordem[k]]|
    {
      result := map[];
      var i := 0;
      while i < |ordem|
        invariant 0 <= i <= |ordem|
        invariant result.Keys == set d | d in ordem[..i] :: d.id
        invariant forall k :: 0 <= k < i && (forall j :: k < j < i ==> ordem[j].id != ordem[k].id) ==>
          result[ordem[k].id] == |plan[ordem[k]]|
      {
        assert ordem[..i + 1] == ordem[..i] + [ordem[i]];
        result := result[ordem[i].id := |plan[ordem[i]]|];
        i := i + 1;
      }
      assert ordem[..i] == ordem;
    }
  }

  /**
   * The drone with the longest route, visiting the plan's entries in the order `ordem`;
   * of several with the longest route, the first visited. None when the plan is empty.
   */
  function DroneMaisEficiente(plan: map<Drone, seq<Pedido>>, ordem: seq<Drone>): (r: Option<Drone>)
    requires forall d :: d in ordem ==> d in plan
    ensures r.None? <==> ordem == []
    ensures r.Some? ==> r.value in ordem && forall d :: d in ordem ==> |plan[d]| <= |plan[r.value]|
  {
    if ordem == [] then None
    else
      var ini := ordem[..|ordem| - 1];
      var d := ordem[|ordem| - 1];
      var m := DroneMaisEficiente(plan, ini);
      assert forall e :: e in ordem ==> e in ini || e == d;
      if m.Some? && |plan[m.value]| >= |plan[d]| then m else Some(d)
  }

  /** On a tie the first drone visited wins: it comes no later than any drone with a route as long. */
  lemma {:induction false} DroneMaisEficientePrimeiro(plan: map<Drone, seq<Pedido>>, ordem: seq<Drone>)
    requires forall d :: d in ordem ==> d in plan
    ensures var r := DroneMaisEficiente(plan, ordem);
      r.Some? ==> forall j :: 0 <= j < |ordem| && |plan[ordem[j]]| == |plan[r.value]| ==> r.value in ordem[..j + 1]
  {
    if ordem != [] {
      var ini := ordem[..|ordem| - 1];
      var d := ordem[|ordem| - 1];
      var m := DroneMaisEficiente(plan, ini);
      DroneMaisEficientePrimeiro(plan, ini);
      var r := DroneMaisEficiente(plan, ordem);
      forall j | 0 <= j < |ordem| && |plan[ordem[j]]| == |plan[r.value]|
        ensures r.value in ordem[..j + 1]
      {
        if j < |ini| {
          assert ordem[j] == ini[j] && ordem[..j + 1] == ini[..j + 1];
        }
      }
    }
  }
}
