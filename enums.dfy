/** The three enumerations of the system: drone states, order states and priorities. */
module Enums {

  /** Drone states. ENTREGANDO, RECARREGANDO and NAO_IDLE_ALOCADO are declared but never assigned. */
  datatype StatusDrone = IDLE | EM_VOO | ENTREGANDO | RETORNANDO | CARREGANDO | RECARREGANDO | NAO_IDLE_ALOCADO

  /** Order states. EM_ENTREGA is declared but never assigned. */
  datatype StatusPedido = PENDENTE | ALOCADO | EM_ENTREGA | ENTREGUE | NAO_ATENDIDO

  /** Priorities, in declaration order BAIXA < MEDIA < ALTA. */
  datatype Prioridade = BAIXA | MEDIA | ALTA {
    /** The position of the constant in its declaration, as Java's `ordinal()`. */
    function Ordinal(): nat {
      match this
      case BAIXA => 0
      case MEDIA => 1
      case ALTA => 2
    }
  }
}
