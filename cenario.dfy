/**
 * The allocation scenario the project's own unit tests run on the default fleet:
 * order A at (10, 10) weighing 5 kg with priority ALTA, order B at (1, 1) weighing
 * 11 kg with priority BAIXA, and order C at (200, 0) weighing 1 kg with priority MEDIA.
 * A goes to the first drone and B to the second. C lies 200 km from the base, so its
 * 400 km round trip fits no drone's range, and it ends NAO_ATENDIDO.
 */
module Cenario {
  import opened Enums
  import opened GeoUtils
  import opened Model
  import opened Planning
  import opened Service

  /** Capacities and ranges of the five drones a new service starts with. */
  predicate FrotaPadrao(frota: seq<Drone>)
  {
    && |frota| == 5
    && frota[0].capacidadeKg == 10.0 && frota[0].alcanceKm == 100.0
    && frota[1].capacidadeKg == 12.0 && frota[1].alcanceKm == 120.0
    && frota[2].capacidadeKg == 8.0 && frota[2].alcanceKm == 80.0
    && frota[3].capacidadeKg == 15.0 && frota[3].alcanceKm == 150.0
    && frota[4].capacidadeKg == 9.0 && frota[4].alcanceKm == 90.0
  }

  /** The three orders of the scenario. */
  predicate PedidosDoCenario(a: Pedido, b: Pedido, c: Pedido)
  {
    && a.x == 10.0 && a.y == 10.0 && a.pesoKg == 5.0 && a.prioridade == ALTA
    && b.x == 1.0 && b.y == 1.0 && b.pesoKg == 11.0 && b.prioridade == BAIXA
    && c.x == 200.0 && c.y == 0.0 && c.pesoKg == 1.0 && c.prioridade == MEDIA
  }

  /** Sorting puts A (ALTA) first, then C (MEDIA), then B (BAIXA). */
  lemma CenarioOrdenado(a: Pedido, b: Pedido, c: Pedido)
    requires PedidosDoCenario(a, b, c)
    ensures OrdenarPorPrioridade([a, b, c]) == [a, c, b]
  {
    assert [a, b, c][1..] == [b, c] && [b, c][1..] == [c];
    assert OrdenarPorPrioridade([c]) == [c];
    assert Insere(b, [c]) == [c, b];
  }

  /** The round trips the search examines: short for A and B, at least 400 km through C. */
  lemma CenarioDistancias(sqrt: real -> real, a: Pedido, b: Pedido, c: Pedido)
    requires IsSqrt(sqrt)
    requires PedidosDoCenario(a, b, c)
    ensures DistanciaRota(sqrt, [a]) <= 30.0
    ensures DistanciaRota(sqrt, [b]) <= 4.0
    ensures DistanciaRota(sqrt, [c]) >= 400.0
    ensures DistanciaRota(sqrt, [a, c]) >= 200.0
    ensures DistanciaRota(sqrt, [c, b]) >= 200.0
  {
    DistanciaRotaPorTrechos(sqrt, [a]);
    DistanciaRotaPorTrechos(sqrt, [b]);
    DistanciaRotaPorTrechos(sqrt, [c]);
    DistanciaRotaPorTrechos(sqrt, [a, c]);
    DistanciaRotaPorTrechos(sqrt, [c, b]);
    SqrtBounds(sqrt, 200.0, 14.0, 15.0);
    SqrtBounds(sqrt, 2.0, 1.0, 2.0);
    SqrtUnique(sqrt, 40000.0, 200.0);
    assert DistanciaKm(sqrt, 0.0, 0.0, a.x, a.y) == sqrt(200.0);
    assert DistanciaKm(sqrt, a.x, a.y, 0.0, 0.0) == sqrt(200.0);
    assert DistanciaKm(sqrt, 0.0, 0.0, b.x, b.y) == sqrt(2.0);
    assert DistanciaKm(sqrt, b.x, b.y, 0.0, 0.0) == sqrt(2.0);
    assert DistanciaKm(sqrt, 0.0, 0.0, c.x, c.y) == sqrt(40000.0);
    assert DistanciaKm(sqrt, c.x, c.y, 0.0, 0.0) == sqrt(40000.0);
  }

  /** With at most 15 kg and 150 km, none of the multi-stop routes and not C alone fits. */
  lemma RotasInviaveis(sqrt: real -> real, d: Drone, a: Pedido, b: Pedido, c: Pedido)
    requires IsSqrt(sqrt)
    requires PedidosDoCenario(a, b, c)
    requires d.capacidadeKg <= 15.0 && d.alcanceKm <= 150.0
    ensures !RotaValida(sqrt, d, [a, c, b])
    ensures !RotaValida(sqrt, d, [a, c]) && !RotaValida(sqrt, d, [a, b]) && !RotaValida(sqrt, d, [c, b])
    ensures !RotaValida(sqrt, d, [c])
  {
    CenarioDistancias(sqrt, a, b, c);
    CenarioPesos(a, b, c);
  }

  /** A, C and B weigh 17 kg together, and A and B 16 kg. */
  lemma CenarioPesos(a: Pedido, b: Pedido, c: Pedido)
    requires PedidosDoCenario(a, b, c)
    ensures PesoTotal([a, c, b]) == 17.0 && PesoTotal([a, b]) == 16.0
  {
    assert [a, c, b][..2] == [a, c] && [a, c][..1] == [a] && [a, b][..1] == [a] && [a][..0] == [];
    assert PesoTotal([a]) == 5.0;
    assert PesoTotal([a, c]) == 6.0;
  }

  /**
   * No drone of the fleet can take two or three of the orders: A and B together weigh
   * 16 kg, and every route through C exceeds 200 km.
   */
  lemma SemTrioNemPar(sqrt: real -> real, d: Drone, s: seq<Pedido>, a: Pedido, b: Pedido, c: Pedido)
    requires IsSqrt(sqrt)
    requires PedidosDoCenario(a, b, c)
    requires d.capacidadeKg <= 15.0 && d.alcanceKm <= 150.0
    requires s == [a, c, b] || s == [c, b] || s == [c]
    ensures forall i, j, k :: !TrioValido(sqrt, d, s, i, j, k)
    ensures forall i, j :: !ParValido(sqrt, d, s, i, j)
  {
    RotasInviaveis(sqrt, d, a, b, c);
    forall i, j, k | 0 <= i < j < k < |s|
      ensures !RotaValida(sqrt, d, [s[i], s[j], s[k]])
    {
      assert [s[i], s[j], s[k]] == [a, c, b];
    }
    forall i, j | 0 <= i < j < |s|
      ensures !RotaValida(sqrt, d, [s[i], s[j]])
    {
      if s == [a, c, b] {
        if i == 0 && j == 1 {
          assert [s[i], s[j]] == [a, c];
        } else if i == 0 {
          assert [s[i], s[j]] == [a, b];
        } else {
          assert [s[i], s[j]] == [c, b];
        }
      } else {
        assert [s[i], s[j]] == [c, b];
      }
    }
  }

  /** The first drone takes A alone. */
  lemma PrimeiraEscolha(sqrt: real -> real, d: Drone, a: Pedido, b: Pedido, c: Pedido)
    requires IsSqrt(sqrt)
    requires PedidosDoCenario(a, b, c)
    requires d.capacidadeKg == 10.0 && d.alcanceKm == 100.0
    ensures MelhorCombinacao(sqrt, d, [a, c, b]) == [a]
  {
    SemTrioNemPar(sqrt, d, [a, c, b], a, b, c);
    CenarioDistancias(sqrt, a, b, c);
    assert UmValido(sqrt, d, [a, c, b], 0);
    MelhorCombinacaoUm(sqrt, d, [a, c, b]);
  }

  /** The second drone, left with C and B, takes B alone. */
  lemma SegundaEscolha(sqrt: real -> real, d: Drone, a: Pedido, b: Pedido, c: Pedido)
    requires IsSqrt(sqrt)
    requires PedidosDoCenario(a, b, c)
    requires d.capacidadeKg == 12.0 && d.alcanceKm == 120.0
    ensures MelhorCombinacao(sqrt, d, [c, b]) == [b]
  {
    SemTrioNemPar(sqrt, d, [c, b], a, b, c);
    CenarioDistancias(sqrt, a, b, c);
    assert UmValido(sqrt, d, [c, b], 1);
    assert !UmValido(sqrt, d, [c, b], 0);
    MelhorCombinacaoUm(sqrt, d, [c, b]);
  }

  /** No drone of the fleet can fly to C. */
  lemma NenhumaEscolha(sqrt: real -> real, d: Drone, a: Pedido, b: Pedido, c: Pedido)
    requires IsSqrt(sqrt)
    requires PedidosDoCenario(a, b, c)
    requires d.capacidadeKg <= 15.0 && d.alcanceKm <= 150.0
    ensures MelhorCombinacao(sqrt, d, [c]) == []
  {
    SemTrioNemPar(sqrt, d, [c], a, b, c);
    CenarioDistancias(sqrt, a, b, c);
    assert !UmValido(sqrt, d, [c], 0);
    MelhorCombinacaoUm(sqrt, d, [c]);
  }

  /** The last three drones, left with C alone, take nothing. */
  lemma CenarioCauda(sqrt: real -> real, frota: seq<Drone>, a: Pedido, b: Pedido, c: Pedido)
    requires IsSqrt(sqrt)
    requires FrotaPadrao(frota) && PedidosDoCenario(a, b, c)
    ensures Alocar(sqrt, frota[2..], [c]) == Alocacao([[], [], []], [c])
  {
    NenhumaEscolha(sqrt, frota[2], a, b, c);
    NenhumaEscolha(sqrt, frota[3], a, b, c);
    NenhumaEscolha(sqrt, frota[4], a, b, c);
    ExcluindoVazio([c]);
    var f4 := frota[4..];
    assert Alocar(sqrt, f4, [c]) == Alocacao([[]], [c]) by {
      assert f4[0] == frota[4] && f4[1..] == [];
    }
    var f3 := frota[3..];
    assert Alocar(sqrt, f3, [c]) == Alocacao([[], []], [c]) by {
      assert f3[0] == frota[3] && f3[1..] == f4;
    }
    var f2 := frota[2..];
    assert f2[0] == frota[2] && f2[1..] == f3;
  }

  /** Once the first drone takes A, C and B are left. */
  lemma RestantesAposA(a: Pedido, b: Pedido, c: Pedido)
    requires PedidosDoCenario(a, b, c)
    ensures Excluindo([a, c, b], [a]) == [c, b]
  {
    assert [a][..0] == [] && [a, c][..1] == [a] && [a, c, b][..2] == [a, c];
    assert Excluindo([a], [a]) == [];
    assert Excluindo([a, c], [a]) == [] + [c] == [c];
    assert Excluindo([a, c, b], [a]) == [c] + [b];
  }

  /** Once the second drone takes B, C alone is left. */
  lemma RestantesAposB(a: Pedido, b: Pedido, c: Pedido)
    requires PedidosDoCenario(a, b, c)
    ensures Excluindo([c, b], [b]) == [c]
  {
    assert [c][..0] == [] && [c, b][..1] == [c];
    assert Excluindo([c], [b]) == [] + [c] == [c];
  }

  /** The planner's routes for the scenario: A for the first drone, B for the second. */
  lemma CenarioRotas(sqrt: real -> real, frota: seq<Drone>, a: Pedido, b: Pedido, c: Pedido)
    requires IsSqrt(sqrt)
    requires FrotaPadrao(frota) && PedidosDoCenario(a, b, c)
    ensures Alocar(sqrt, frota, [a, c, b]) == Alocacao([[a], [b], [], [], []], [c])
  {
    PrimeiraEscolha(sqrt, frota[0], a, b, c);
    RestantesAposA(a, b, c);
    CenarioSegundo(sqrt, frota, a, b, c);
  }

  /** From the second drone on, with C and B pending: B for the second drone, nothing after. */
  lemma CenarioSegundo(sqrt: real -> real, frota: seq<Drone>, a: Pedido, b: Pedido, c: Pedido)
    requires IsSqrt(sqrt)
    requires FrotaPadrao(frota) && PedidosDoCenario(a, b, c)
    ensures Alocar(sqrt, frota[1..], [c, b]) == Alocacao([[b], [], [], []], [c])
  {
    SegundaEscolha(sqrt, frota[1], a, b, c);
    CenarioCauda(sqrt, frota, a, b, c);
    RestantesAposB(a, b, c);
    var f1 := frota[1..];
    assert f1[0] == frota[1] && f1[1..] == frota[2..];
  }

  /**
   * On the default fleet, with only A, B and C pending, the planner gives A to the first
   * drone and B to the second: exactly two orders are allocated, and C is NAO_ATENDIDO.
   */
  lemma CenarioAlocacao(sqrt: real -> real, frota: seq<Drone>, a: Pedido, b: Pedido, c: Pedido)
    requires IsSqrt(sqrt)
    requires FrotaPadrao(frota) && PedidosDoCenario(a, b, c)
    ensures var A := Alocar(sqrt, frota, OrdenarPorPrioridade([a, b, c]));
      && A.rotas == [[a], [b], [], [], []]
      && A.restantes == [c]
      && |Atribuidos(A.rotas, 5)| == 2
      && Reclassificados([a, b, c], [PENDENTE, PENDENTE, PENDENTE], Atribuidos(A.rotas, 5))
         == [ALOCADO, ALOCADO, NAO_ATENDIDO]
  {
    CenarioOrdenado(a, b, c);
    CenarioRotas(sqrt, frota, a, b, c);
    var rotas: seq<seq<Pedido>> := [[a], [b], [], [], []];
    assert Atribuidos(rotas, 2) == [a, b] by {
      assert Atribuidos(rotas, 1) == [a];
    }
    assert Atribuidos(rotas, 5) == [a, b] by {
      assert Atribuidos(rotas, 3) == [a, b];
      assert Atribuidos(rotas, 4) == [a, b];
    }
  }

  /** A list whose orders are all PENDENTE is its own pending list. */
  lemma {:induction false} TodosPendentes(ps: seq<Pedido>)
    requires forall i :: 0 <= i < |ps| ==> ps[i].status == PENDENTE
    ensures FiltrarPendentes(ps) == ps
  {
    if ps != [] {
      TodosPendentes(ps[..|ps| - 1]);
      assert ps == ps[..|ps| - 1] + [ps[|ps| - 1]];
    }
  }

  /** What the service's planning cycle yields on the scenario: two orders planned, C NAO_ATENDIDO. */
  lemma ResultadoCenario(sqrt: real -> real, frota: seq<Drone>, a: Pedido, b: Pedido, c: Pedido,
                         plan: map<Drone, seq<Pedido>>, estados: seq<StatusPedido>)
    requires IsSqrt(sqrt)
    requires FrotaPadrao(frota) && PedidosDoCenario(a, b, c)
    requires forall i, j :: 0 <= i < j < |frota| ==> frota[i] != frota[j]
    requires var A := Alocar(sqrt, frota, OrdenarPorPrioridade([a, b, c]));
      && plan == Plano(frota, A.rotas, |frota|)
      && estados == Reclassificados([a, b, c], [PENDENTE, PENDENTE, PENDENTE], Atribuidos(A.rotas, |frota|))
    ensures forall d :: d in frota ==> d in plan
    ensures |frota| == 5
      && |plan[frota[0]]| + |plan[frota[1]]| + |plan[frota[2]]| + |plan[frota[3]]| + |plan[frota[4]]| == 2
    ensures estados == [ALOCADO, ALOCADO, NAO_ATENDIDO]
  {
    CenarioAlocacao(sqrt, frota, a, b, c);
    PlanoAtras(frota, [[a], [b], [], [], []], 5);
  }

  /** A new service with the orders A, B and C created in that order, all PENDENTE. */
  method NovoCenario(ids: DroneIds) returns (service: DroneService, a: Pedido, b: Pedido, c: Pedido)
    modifies ids
    ensures fresh(service) && service.Valid() && service.ids == ids
    ensures FrotaPadrao(service.drones) && forall d :: d in service.drones ==> fresh(d)
    ensures service.pedidos == [a, b, c] && fresh(a) && fresh(b) && fresh(c)
    ensures PedidosDoCenario(a, b, c)
    ensures a.status == PENDENTE && b.status == PENDENTE && c.status == PENDENTE
  {
    service := new DroneService(ids);
    var pa := service.CriarPedido(10.0, 10.0, 5.0, ALTA, "A", 1);
    assert service.pedidos == [pa];
    var pb := service.CriarPedido(1.0, 1.0, 11.0, BAIXA, "B", 2);
    assert service.pedidos == [pa, pb];
    var pc := service.CriarPedido(200.0, 0.0, 1.0, MEDIA, "C", 3);
    a, b, c := pa, pb, pc;
  }

  /** One planning cycle of the service on the scenario. */
  method PlanejarCenario(sqrt: real -> real, service: DroneService, a: Pedido, b: Pedido, c: Pedido)
    returns (plan: map<Drone, seq<Pedido>>)
    requires IsSqrt(sqrt)
    requires service.Valid() && FrotaPadrao(service.drones)
    requires service.pedidos == [a, b, c] && PedidosDoCenario(a, b, c)
    requires a.status == PENDENTE && b.status == PENDENTE && c.status == PENDENTE
    modifies service, service.Frota(), service.Pedidos()
    ensures service.drones == old(service.drones) && |service.drones| == 5
    ensures forall d :: d in service.drones ==> d in plan
    ensures |plan[service.drones[0]]| + |plan[service.drones[1]]| + |plan[service.drones[2]]|
          + |plan[service.drones[3]]| + |plan[service.drones[4]]| == 2
    ensures c.status == NAO_ATENDIDO
  {
    TodosPendentes(service.pedidos);
    EstadosIndice(service.pedidos);
    assert Estados(service.pedidos) == [PENDENTE, PENDENTE, PENDENTE];
    plan := service.AlocarPedidos(sqrt);
    ResultadoCenario(sqrt, service.drones, a, b, c, plan, Estados(service.pedidos));
    EstadosIndice(service.pedidos);
  }

  /**
   * The same scenario through the service: a new service, the three orders created in the
   * order A, B, C, one planning cycle. The plan's routes hold two orders in all, and C's
   * status is NAO_ATENDIDO.
   */
  method TesteAlocacaoPriorizacao(sqrt: real -> real, ids: DroneIds) returns (alocados: nat, statusC: StatusPedido)
    requires IsSqrt(sqrt)
    modifies ids
    ensures alocados == 2 && statusC == NAO_ATENDIDO
  {
    var service, a, b, c := NovoCenario(ids);
    var plan := PlanejarCenario(sqrt, service, a, b, c);
    var frota := service.drones;
    alocados := |plan[frota[0]]| + |plan[frota[1]]| + |plan[frota[2]]| + |plan[frota[3]]| + |plan[frota[4]]|;
    statusC := c.status;
  }
}
