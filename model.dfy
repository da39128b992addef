/** The two entities the planner and the simulator mutate: delivery orders and drones. */
module Model {
  import opened Enums

  /** The maximum weight any order may have; heavier requests never become orders. */
  const PESO_MAXIMO: real := 15.0

  /** A delivery order. Every field is fixed at construction except `status`. */
  class Pedido {
    const id: string
    const x: real
    const y: real
    const pesoKg: real
    const prioridade: Prioridade
    /** Arrival time, used only as the FIFO tie-break when planning. */
    const dataChegadaTimestamp: int
    var status: StatusPedido

    /** `id` and `timestamp` stand for the random UUID and the wall clock the Java class reads. */
    constructor (id: string, x: real, y: real, pesoKg: real, prioridade: Prioridade, timestamp: int)
      ensures this.id == id && this.x == x && this.y == y && this.pesoKg == pesoKg
      ensures this.prioridade == prioridade && dataChegadaTimestamp == timestamp
      ensures status == PENDENTE
    {
      this.id := id;
      this.x := x;
      this.y := y;
      this.pesoKg := pesoKg;
      this.prioridade := prioridade;
      this.dataChegadaTimestamp := timestamp;
      this.status := PENDENTE;
    }

    method SetStatus(s: StatusPedido)
      modifies this
      ensures status == s
    {
      status := s;
    }

    method GetStatus() returns (s: StatusPedido)
      ensures s == status
    {
      s := status;
    }
  }

  /** The issuer of drone ids: each id it hands out is one more than the previous. */
  class DroneIds {
    var next: int

    constructor ()
      ensures next == 1
    {
      next := 1;
    }
  }

  /** A delivery drone. Capacity and range are fixed at construction. */
  class Drone {
    const id: int
    const capacidadeKg: real
    const alcanceKm: real
    var posX: real
    var posY: real
    var bateriaPercent: real
    var status: StatusDrone
    var currentPedido: Pedido?

    constructor (ids: DroneIds, capacidadeKg: real, alcanceKm: real, posX: real, posY: real)
      modifies ids
      ensures id == old(ids.next) && ids.next == old(ids.next) + 1
      ensures this.capacidadeKg == capacidadeKg && this.alcanceKm == alcanceKm
      ensures this.posX == posX && this.posY == posY
      ensures bateriaPercent == 100.0 && status == IDLE && currentPedido == null
    {
      id := ids.next;
      ids.next := ids.next + 1;
      this.capacidadeKg := capacidadeKg;
      this.alcanceKm := alcanceKm;
      this.posX := posX;
      this.posY := posY;
      bateriaPercent := 100.0;
      status := IDLE;
      currentPedido := null;
    }

    /** The drone's charge is in the range [0, 100]. */
    ghost predicate BateriaValida()
      reads this
    {
      0.0 <= bateriaPercent <= 100.0
    }

    method SetX(x: real)
      modifies this
      ensures posX == x
      ensures posY == old(posY) && bateriaPercent == old(bateriaPercent)
      ensures status == old(status) && currentPedido == old(currentPedido)
    {
      posX := x;
    }

    method SetY(y: real)
      modifies this
      ensures posY == y
      ensures posX == old(posX) && bateriaPercent == old(bateriaPercent)
      ensures status == old(status) && currentPedido == old(currentPedido)
    {
      posY := y;
    }

    method SetStatus(s: StatusDrone)
      modifies this
      ensures status == s
      ensures posX == old(posX) && posY == old(posY)
      ensures bateriaPercent == old(bateriaPercent) && currentPedido == old(currentPedido)
    {
      status := s;
    }

    method ConsumirBateria(valor: real)
      modifies this
      ensures bateriaPercent == AposConsumo(old(bateriaPercent), valor)
      ensures posX == old(posX) && posY == old(posY)
      ensures status == old(status) && currentPedido == old(currentPedido)
    {
      bateriaPercent := if 0.0 < bateriaPercent - valor then bateriaPercent - valor else 0.0;
    }

    /** Full charge, back to IDLE, no current order; the position is kept. */
    method Recarregar()
      modifies this
      ensures bateriaPercent == 100.0 && status == IDLE && currentPedido == null
      ensures posX == old(posX) && posY == old(posY)
    {
      bateriaPercent := 100.0;
      status := IDLE;
      currentPedido := null;
    }

    /** Back to the base (0, 0); nothing else changes. */
    method RecarregarPosicao()
      modifies this
      ensures posX == 0.0 && posY == 0.0
      ensures bateriaPercent == old(bateriaPercent)
      ensures status == old(status) && currentPedido == old(currentPedido)
    {
      posX := 0.0;
      posY := 0.0;
    }

    /** Binds the drone to `p`, which becomes ALOCADO, and starts loading. */
    method AssignPedido(p: Pedido)
      modifies this, p
      ensures currentPedido == p && p.status == ALOCADO && status == CARREGANDO
      ensures posX == old(posX) && posY == old(posY) && bateriaPercent == old(bateriaPercent)
    {
      currentPedido := p;
      p.SetStatus(ALOCADO);
      SetStatus(CARREGANDO);
    }

    /** Drops the current order; the status is left to the caller. */
    method FinishPedido()
      modifies this
      ensures currentPedido == null
      ensures posX == old(posX) && posY == old(posY)
      ensures bateriaPercent == old(bateriaPercent) && status == old(status)
    {
      currentPedido := null;
    }
  }

  /** The charge left after spending `valor` from `bateria`: never below zero. */
  function AposConsumo(bateria: real, valor: real): (r: real)
    ensures 0.0 <= r && bateria - valor <= r
    ensures r == 0.0 || r == bateria - valor
    ensures 0.0 <= valor && 0.0 <= bateria ==> r <= bateria
  {
    if 0.0 < bateria - valor then bateria - valor else 0.0
  }

  /** Spending a non-negative amount keeps a charge in [0, 100] within [0, 100] and never raises it. */
  lemma ConsumoPreservaBateria(bateria: real, valor: real)
    requires 0.0 <= bateria <= 100.0 && 0.0 <= valor
    ensures 0.0 <= AposConsumo(bateria, valor) <= bateria <= 100.0
  {
  }
}
