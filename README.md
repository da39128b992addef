# Drone delivery simulator — a verified model

This project models the core of a small drone delivery simulator written in Java. A
service keeps a fleet of drones and a list of delivery orders. The fleet's base is at
(0, 0), and five default drones have fixed payload capacities and flight ranges. Each
order has a position, a weight, a priority (BAIXA, MEDIA, ALTA) and an arrival time.

A planning cycle does the following:
- It resets every drone to the base.
- It collects the PENDENTE orders and sorts them by priority, highest first, then by
  arrival time.
- It visits the drones in fleet order. Each drone takes the first valid 3-order route
  among the orders still available, else the first valid pair, else the first single
  order. A route is valid when its weight is within the drone's capacity and its round
  trip (base, stops in order, base) is within the drone's range.
- The chosen orders become ALOCADO and each is mapped to its drone. Every pending order
  left over becomes NAO_ATENDIDO.

Two simulations then run a plan:
- The technical simulation replays each route leg by leg. Each leg costs 0.5% of
  charge per km plus 0.1% per km and kg carried. A leg that ends at or below 20%
  triggers an urgent recharge. The return to base costs 0.5% per km. The simulation
  reports deliveries, the mean distance per delivery, and each drone's consumption and
  recharges.
- The stepped simulation moves every drone one unit per axis per pass until no drone
  is active.

Modules:

- `Enums`, `Options`: the status and priority enumerations, and an option type.
- `Model`: the `Pedido` and `Drone` classes, with their mutators as methods. Also the
  `DroneIds` generator that hands out drone identifiers.
- `GeoUtils`: the Euclidean distance and its properties.
- `Planning`: the planner as pure functions:
  - route weight and round trip
  - the route check
  - the priority sort, proved sorted and a permutation
  - the first-fit searches, proved to return the lexicographically first valid
    combination
  - the allocation over the fleet, proved to give disjoint, valid routes drawn from
    the pending orders
- `Service`: the `DroneService` class. Its loops (collection, search, allocation,
  marking) are methods proved to compute exactly what `Planning` defines.
  `AlocarPedidos` is proved to leave the plan, the order-to-drone map, every drone and
  every order status as the planner prescribes.
- `Simulator`: the technical simulation. `RunSimulation` is proved equal to a pure
  replay, and lemmas relate the replay to the planner. The distance counted is the
  planned round trip. For orders of non-negative weight the charge stays above the limit
  after every leg. Every planned
  order is counted as delivered.
- `SimulacaoAscii`: the stepped simulation. Each drone's step, each pass and the
  bounded run are proved against pure definitions. Lemmas show that a step keeps a
  drone coherent with its route, moves it at most one unit per axis, and marks orders
  only in route order. They also show that the loop stops exactly when every drone is
  IDLE at the end of its route.
- `Cenario`: the allocation scenario of the project's unit tests, proved outright.
  Order A is allocated to the first drone and B to the second; C is out of every
  drone's range and ends NAO_ATENDIDO.

Source behaviours the model keeps as written:
- The technical simulation counts the urgent return leg in neither the distance nor the
  consumption: its charge is spent and then replaced by the recharge.
- After an urgent recharge, the next leg starts from the order just delivered
  (Simulator.java:113-114). The comment and message at Simulator.java:108-109 say the
  drone resumes its mission from the base; the model follows the assignments.
- `criarPedido` rejects only weights above 15 kg (DroneService.java:44), so an order of
  negative weight is accepted, and its legs then cost negative charge.
- A drone the stepped simulation turns back for low charge lands and stays IDLE. Its
  remaining orders stay ALOCADO.

## Model

| member | source | states |
|---|---|---|
| Model.Pedido.constructor | drone-sim-java-se/src/com/example/dronesim/model/Pedido.java:14-22 | a new order holds the given position, weight, priority, identifier and arrival time and starts PENDENTE |
| Model.Pedido.SetStatus | drone-sim-java-se/src/com/example/dronesim/model/Pedido.java:30 | the order's status becomes the given one |
| Model.Pedido.GetStatus | drone-sim-java-se/src/com/example/dronesim/model/Pedido.java:29 | returns the order's current status |
| Model.DroneIds.constructor | drone-sim-java-se/src/com/example/dronesim/model/Drone.java:6 | the drone identifier counter starts at 1 |
| Model.Drone.constructor | drone-sim-java-se/src/com/example/dronesim/model/Drone.java:16-24 | a new drone takes the next identifier, which advances the counter by one; it keeps the given capacity, range and position, and starts at 100% charge, IDLE, with no order |
| Model.Drone.SetX | drone-sim-java-se/src/com/example/dronesim/model/Drone.java:30 | only the x coordinate changes |
| Model.Drone.SetY | drone-sim-java-se/src/com/example/dronesim/model/Drone.java:32 | only the y coordinate changes |
| Model.Drone.SetStatus | drone-sim-java-se/src/com/example/dronesim/model/Drone.java:45 | only the status changes |
| Model.Drone.ConsumirBateria | drone-sim-java-se/src/com/example/dronesim/model/Drone.java:34 | the charge drops by the amount, floored at 0; nothing else changes |
| Model.AposConsumo | drone-sim-java-se/src/com/example/dronesim/model/Drone.java:34 | the charge after consumption is never negative, is either 0 or the old charge minus the amount, and never exceeds the old charge for a non-negative amount |
| Model.ConsumoPreservaBateria | drone-sim-java-se/src/com/example/dronesim/model/Drone.java:34 | consuming a non-negative amount keeps a charge in [0, 100] within [0, old charge] |
| Model.Drone.Recarregar | drone-sim-java-se/src/com/example/dronesim/model/Drone.java:35-39 | charge 100%, IDLE, no order; the position is kept |
| Model.Drone.RecarregarPosicao | drone-sim-java-se/src/com/example/dronesim/model/Drone.java:40-43 | the drone is placed at the base (0, 0); nothing else changes |
| Model.Drone.AssignPedido | drone-sim-java-se/src/com/example/dronesim/model/Drone.java:47 | the drone holds the order, which becomes ALOCADO, and is CARREGANDO; position and charge are kept |
| Model.Drone.FinishPedido | drone-sim-java-se/src/com/example/dronesim/model/Drone.java:48 | the drone holds no order; nothing else changes |
| GeoUtils.DistanciaKm | drone-sim-java-se/src/com/example/dronesim/util/GeoUtils.java:4-7 | with a true square root the distance is non-negative and its square is the sum of the squared coordinate differences |
| GeoUtils.DistanciaSimetrica | drone-sim-java-se/src/com/example/dronesim/util/GeoUtils.java:4-7 | the distance from p to q equals the distance from q to p |
| GeoUtils.DistanciaPropria | drone-sim-java-se/src/com/example/dronesim/util/GeoUtils.java:4-7 | a point is at distance 0 from itself |
| GeoUtils.DistanciaTresQuatro | drone-sim-java-se/src/com/example/dronesim/service/TesteUnitario.java:57-58 | the distance from (0, 0) to (3, 4) is 5 |
| GeoUtils.DistanciaVertical | drone-sim-java-se/src/com/example/dronesim/service/TesteUnitario.java:61-62 | the distance from (10, 10) to (10, 20) is 10 |
| Planning.DistanciaRotaPorTrechos | drone-sim-java-se/src/com/example/dronesim/service/DroneService.java:196-218 | the round trip of a 1-, 2- or 3-stop route is base to first stop, stop to stop in order, and last stop back to base; its weight is the sum of its orders' weights |
| Planning.PesoTotal | drone-sim-java-se/src/com/example/dronesim/service/DroneService.java:198 | the route's weight: the sum of its orders' weights |
| Planning.Percurso | drone-sim-java-se/src/com/example/dronesim/service/DroneService.java:203-211 | the outbound path: base to the first stop, then stop to stop in route order |
| Planning.DistanciaRota | drone-sim-java-se/src/com/example/dronesim/service/DroneService.java:203-214 | the round trip: the outbound path plus the leg from the last stop (or the base) back to the base |
| Planning.RotaValida | drone-sim-java-se/src/com/example/dronesim/service/DroneService.java:196-218 | a drone can fly a route when its weight is within capacity and its round trip within range |
| Planning.PercursoNaoNegativo | drone-sim-java-se/src/com/example/dronesim/service/DroneService.java:204-215 | the outbound path of a route is non-negative and at most the full round trip |
| Planning.Precede | drone-sim-java-se/src/com/example/dronesim/service/DroneService.java:97-99 | the comparator: higher priority first, then earlier arrival |
| Planning.Insere | drone-sim-java-se/src/com/example/dronesim/service/DroneService.java:97-100 | insertion of an order before the first order it may precede, so it stays after equal keys already placed |
| Planning.OrdenarPorPrioridade | drone-sim-java-se/src/com/example/dronesim/service/DroneService.java:97-100 | the stable sort of the pending orders by the comparator |
| Planning.Chave | drone-sim-java-se/src/com/example/dronesim/service/DroneService.java:98-99 | the sort key: priority, then arrival time |
| Planning.DeChave | drone-sim-java-se/src/com/example/dronesim/service/DroneService.java:97-100 | the orders of one key, in list order, each of them from the list and of that key |
| Planning.InsereEstavel | drone-sim-java-se/src/com/example/dronesim/service/DroneService.java:97-100 | inserting an order passes only orders of a strictly smaller key, so it lands first among the orders of its key |
| Planning.InsereOrdena | drone-sim-java-se/src/com/example/dronesim/service/DroneService.java:97-100 | inserting an order into a list sorted by (priority descending, arrival ascending) keeps it sorted and adds exactly that order |
| Planning.OrdenarPorPrioridadeCorreta | drone-sim-java-se/src/com/example/dronesim/service/DroneService.java:97-100 | the pending orders are sorted by priority descending then arrival ascending, are a permutation of the input, and the sort is stable: orders sharing priority and arrival time keep their input order |
| Planning.BuscaTrio | drone-sim-java-se/src/com/example/dronesim/service/DroneService.java:150-161 | a trio found is a valid route of three distinct indices i < j < k |
| Planning.BuscaPar | drone-sim-java-se/src/com/example/dronesim/service/DroneService.java:164-174 | a pair found is a valid route of two indices i < j |
| Planning.BuscaUm | drone-sim-java-se/src/com/example/dronesim/service/DroneService.java:177-187 | a single order found is a valid route |
| Planning.MelhorCombinacao | drone-sim-java-se/src/com/example/dronesim/service/DroneService.java:145-190 | the route picked: the first valid trio, else the first valid pair, else the first valid single order, else none |
| Planning.BuscaTrioNaoAntes | drone-sim-java-se/src/com/example/dronesim/service/DroneService.java:150-161 | the nested loops never return a trio that comes before the point where the search resumed |
| Planning.BuscaTrioPrimeiro | drone-sim-java-se/src/com/example/dronesim/service/DroneService.java:150-161 | whenever a valid trio lies at or after the start, the nested loops find one, and none of those precedes the trio returned |
| Planning.BuscaParPrimeiro | drone-sim-java-se/src/com/example/dronesim/service/DroneService.java:164-174 | the pair loops return the lexicographically first valid pair at or after the start, or none exists there |
| Planning.BuscaUmPrimeiro | drone-sim-java-se/src/com/example/dronesim/service/DroneService.java:177-187 | the single-order loop returns the first valid order at or after the start, or none exists there |
| Planning.MelhorCombinacaoTrio | drone-sim-java-se/src/com/example/dronesim/service/DroneService.java:145-161 | the best combination has three orders exactly when some valid trio exists, and then it is the first valid trio |
| Planning.MelhorCombinacaoAteDois | drone-sim-java-se/src/com/example/dronesim/service/DroneService.java:145-162 | when no trio is found the best combination has at most two orders |
| Planning.MelhorCombinacaoPar | drone-sim-java-se/src/com/example/dronesim/service/DroneService.java:163-174 | with no valid trio, the result has two orders exactly when a valid pair exists, and then it is the first valid pair |
| Planning.MelhorCombinacaoUm | drone-sim-java-se/src/com/example/dronesim/service/DroneService.java:176-189 | with no valid trio or pair, the result is the first valid single order if any, and empty exactly when no order fits alone |
| Planning.MelhorCombinacaoValida | drone-sim-java-se/src/com/example/dronesim/service/DroneService.java:145-190 | the chosen route has at most three orders, is valid when non-empty, is drawn from the available orders and repeats none |
| Planning.ExcluindoMembros | drone-sim-java-se/src/com/example/dronesim/service/DroneService.java:128 | removing the chosen orders keeps exactly the available orders not chosen, without repetition |
| Planning.ExcluindoVazio | drone-sim-java-se/src/com/example/dronesim/service/DroneService.java:128 | removing no orders changes nothing |
| Planning.ExcluindoDuas | drone-sim-java-se/src/com/example/dronesim/service/DroneService.java:128 | removing one set of orders and then another equals removing both at once |
| Planning.Excluindo | drone-sim-java-se/src/com/example/dronesim/service/DroneService.java:128 | the pending list with every occurrence of the chosen orders removed |
| Planning.AtribuidosMembro | drone-sim-java-se/src/com/example/dronesim/service/DroneService.java:106-129 | an order is among those assigned to the first n drones exactly when it is on one of their routes |
| Planning.DonoDeCorreto | drone-sim-java-se/src/com/example/dronesim/service/DroneService.java:116 | the order-to-drone map holds exactly the assigned orders, and with disjoint routes maps each to the drone whose route holds it |
| Planning.Alocar | drone-sim-java-se/src/com/example/dronesim/service/DroneService.java:106-130 | the allocation gives every drone of the fleet exactly one route |
| Planning.AlocarFormaFechada | drone-sim-java-se/src/com/example/dronesim/service/DroneService.java:106-130 | each drone in fleet order takes the best combination of the orders left by the drones before it, and the orders left at the end are the sorted pending ones not assigned |
| Planning.AlocarEscolha | drone-sim-java-se/src/com/example/dronesim/service/DroneService.java:106-129 | drone k's route is the best combination of the pending orders not taken by drones 0..k-1 |
| Planning.AlocarGarantias | drone-sim-java-se/src/com/example/dronesim/service/DroneService.java:106-136 | every route has at most three orders, is valid when non-empty and is drawn from the pending orders; no order goes to two drones; the left-over orders are exactly the pending ones not assigned |
| Planning.Disjuntas | drone-sim-java-se/src/com/example/dronesim/service/DroneService.java:106-129 | no order appears on two of the routes |
| Planning.AlocarDisjuntas | drone-sim-java-se/src/com/example/dronesim/service/DroneService.java:106-129 | no order is placed on two drones' routes |
| Planning.AlocarDono | drone-sim-java-se/src/com/example/dronesim/service/DroneService.java:114-117 | the order-to-drone map covers exactly the assigned orders and maps each to the drone that carries it |
| Service.FiltrarPendentes | drone-sim-java-se/src/com/example/dronesim/service/DroneService.java:91-94 | collects exactly the orders whose status is PENDENTE, without repetition when the input has none |
| Service.EstadoApos | drone-sim-java-se/src/com/example/dronesim/service/DroneService.java:84-122 | after allocation a drone is at the base with full charge, IDLE with no order when its route is empty, else CARREGANDO with its route's first order |
| Service.Reclassificados | drone-sim-java-se/src/com/example/dronesim/service/DroneService.java:114-136 | after allocation no order is PENDENTE; orders that were not PENDENTE keep their status; a pending order is ALOCADO exactly when it was assigned, else NAO_ATENDIDO |
| Service.MarcacaoReclassifica | drone-sim-java-se/src/com/example/dronesim/service/DroneService.java:114-136 | marking the assigned orders ALOCADO and then the left-over ones NAO_ATENDIDO yields the reclassification |
| Service.PlanoVazioCorreto | drone-sim-java-se/src/com/example/dronesim/service/DroneService.java:84-85 | the initial plan has every drone as a key, each with an empty route |
| Service.PlanoAtras | drone-sim-java-se/src/com/example/dronesim/service/DroneService.java:115 | after k drones are processed, each of them maps to its route in the plan and the plan's keys are the whole fleet |
| Service.PlanoAdiante | drone-sim-java-se/src/com/example/dronesim/service/DroneService.java:84-85 | drones not yet processed still map to an empty route |
| Service.DefinirStatus | drone-sim-java-se/src/com/example/dronesim/service/DroneService.java:26-28 | every order of the list gets the given status |
| Service.DroneService.constructor | drone-sim-java-se/src/com/example/dronesim/service/DroneService.java:13-20 | the service starts with no orders and the five default drones at the base: 10 kg/100 km, 12/120, 8/80, 15/150, 9/90 |
| Service.DroneService.ResetPedidos | drone-sim-java-se/src/com/example/dronesim/service/DroneService.java:25-35 | every order becomes PENDENTE, every drone is at the base, fully charged, IDLE, with no order, and the order-to-drone map is emptied |
| Service.DroneService.CriarDrone | drone-sim-java-se/src/com/example/dronesim/service/DroneService.java:37-41 | a new drone with the given capacity, range and position and the next identifier is appended to the fleet |
| Service.DroneService.CriarPedido | drone-sim-java-se/src/com/example/dronesim/service/DroneService.java:43-52 | an order heavier than 15 kg is rejected (null, nothing added); otherwise a new PENDENTE order with the given data is appended |
| Service.DroneService.GetPedidosDoDrone | drone-sim-java-se/src/com/example/dronesim/service/DroneService.java:62-74 | the result holds exactly the orders mapped to a drone with the same identifier, sorted by priority descending then arrival ascending |
| Service.DroneService.ValidarRota | drone-sim-java-se/src/com/example/dronesim/service/DroneService.java:196-218 | the route check answers whether the route is within capacity and within range for its round trip |
| Service.DroneService.BuscarTrio | drone-sim-java-se/src/com/example/dronesim/service/DroneService.java:150-161 | the trio loops compute the first valid trio of available orders |
| Service.DroneService.BuscarPar | drone-sim-java-se/src/com/example/dronesim/service/DroneService.java:164-174 | the pair loops compute the first valid pair of available orders |
| Service.DroneService.BuscarUm | drone-sim-java-se/src/com/example/dronesim/service/DroneService.java:177-187 | the single-order loop computes the first order that fits alone |
| Service.DroneService.BuscarMelhorCombinacao | drone-sim-java-se/src/com/example/dronesim/service/DroneService.java:145-190 | returns the first valid trio, else the first valid pair, else the first valid single order, else an empty route |
| Service.DroneService.RegistrarRota | drone-sim-java-se/src/com/example/dronesim/service/DroneService.java:114-119 | the chosen orders are appended to the drone's route, mapped to the drone and marked ALOCADO |
| Service.DroneService.ColetarPendentes | drone-sim-java-se/src/com/example/dronesim/service/DroneService.java:91-94 | the loop collects the PENDENTE orders in list order |
| Service.DroneService.PrepararFrota | drone-sim-java-se/src/com/example/dronesim/service/DroneService.java:84-88 | every drone gets an empty route and is put at the base, fully charged and IDLE |
| Service.DroneService.TurnoDrone | drone-sim-java-se/src/com/example/dronesim/service/DroneService.java:106-129 | one drone's turn gives it the best combination of the remaining orders, maps and marks them, and leaves the rest for the next drones |
| Service.DroneService.PassoAlocacao | drone-sim-java-se/src/com/example/dronesim/service/DroneService.java:106-129 | the turn of drone k keeps the fleet, the remaining orders and the order statuses equal to the planner's after k + 1 drones |
| Service.DroneService.AlocarFrota | drone-sim-java-se/src/com/example/dronesim/service/DroneService.java:106-130 | after the drone loop the plan, the order-to-drone map, the drones and the order statuses are those the planner defines |
| Service.DroneService.AtribuirRotas | drone-sim-java-se/src/com/example/dronesim/service/DroneService.java:106-130 | the drone loop over the reset fleet leaves the plan, the order-to-drone map, the drones and the ALOCADO marks as the planner's allocation defines, and returns the orders it did not take |
| Service.FechoDaReclassificacao | drone-sim-java-se/src/com/example/dronesim/service/DroneService.java:114-136 | marking the allocation's orders ALOCADO and the left-over ones NAO_ATENDIDO gives the reclassified statuses |
| Service.DroneService.ConcluirAlocacao | drone-sim-java-se/src/com/example/dronesim/service/DroneService.java:102-136 | the drone loop and the NAO_ATENDIDO marking together produce the planner's routes and the reclassified statuses |
| Service.DroneService.MarcarNaoAtendidos | drone-sim-java-se/src/com/example/dronesim/service/DroneService.java:133-136 | every order left over is marked NAO_ATENDIDO and no other order changes |
| Service.DroneService.CicloDePlanejamento | drone-sim-java-se/src/com/example/dronesim/service/DroneService.java:79-140 | the reset, collection, sort, drone loop and marking together yield the planner's allocation of the sorted pending orders |
| Service.DroneService.AlocarPedidos | drone-sim-java-se/src/com/example/dronesim/service/DroneService.java:79-140 | the plan, the order-to-drone map, the drones' states and the orders' statuses are exactly those of the first-fit allocation of the sorted pending orders; fleet and order list are unchanged |
| Service.DroneService.EntregasPorDrone | drone-sim-java-se/src/com/example/dronesim/service/DroneService.java:220-226 | the result maps each drone identifier in the plan to the number of orders on its route, the last drone with that identifier winning |
| Service.DroneMaisEficiente | drone-sim-java-se/src/com/example/dronesim/service/DroneService.java:228-233 | no drone exactly when the enumeration of the plan's drones is empty; otherwise one of them with a route at least as long as every other's |
| Service.DroneMaisEficientePrimeiro | drone-sim-java-se/src/com/example/dronesim/service/DroneService.java:228-233 | among drones with the longest route, the first in iteration order is chosen |
| Simulator.EstadoSimulado | drone-sim-java-se/src/com/example/dronesim/service/Simulator.java:122-138 | after its route a drone is IDLE with no order and holds the charge the replay ends with |
| Simulator.Custo | drone-sim-java-se/src/com/example/dronesim/service/Simulator.java:90 | a leg's cost: 0.5 per km plus 0.1 per km and kg carried |
| Simulator.Trecho | drone-sim-java-se/src/com/example/dronesim/service/Simulator.java:86-118 | one leg: charge drops by its cost; at or below 20% an urgent return and recharge (neither its cost nor its distance is counted); then delivery and the load shrinks by the order's weight |
| Simulator.Trechos | drone-sim-java-se/src/com/example/dronesim/service/Simulator.java:82-120 | the legs of the route in order |
| Simulator.GastoRegresso | drone-sim-java-se/src/com/example/dronesim/service/Simulator.java:123-126 | the final leg's cost: 0.5 per km, without the load term |
| Simulator.Regresso | drone-sim-java-se/src/com/example/dronesim/service/Simulator.java:122-138 | the final leg, then a recharge when at or below 20%, the drone ending IDLE |
| Simulator.Simulacao | drone-sim-java-se/src/com/example/dronesim/service/Simulator.java:69-138 | the whole replay of a route from full charge at the base carrying the whole route's weight |
| Simulator.TrechosPercorrem | drone-sim-java-se/src/com/example/dronesim/service/Simulator.java:82-120 | the delivery legs add the outbound path of the route to the distance counted and end at the last stop |
| Simulator.SimulacaoPercorreRota | drone-sim-java-se/src/com/example/dronesim/service/Simulator.java:82-129 | the distance counted for a route equals its planned round trip, the urgent return legs not being counted |
| Simulator.TrechosDescarregam | drone-sim-java-se/src/com/example/dronesim/service/Simulator.java:113-118 | each delivery removes its order's weight from the load |
| Simulator.SimulacaoDescarrega | drone-sim-java-se/src/com/example/dronesim/service/Simulator.java:78-118 | the load is empty once every order of the route is delivered |
| Simulator.TrechosRecargas | drone-sim-java-se/src/com/example/dronesim/service/Simulator.java:96-110 | the legs add at most one urgent recharge per order |
| Simulator.SimulacaoRecargas | drone-sim-java-se/src/com/example/dronesim/service/Simulator.java:96-138 | a route costs at most one recharge per order plus one at the end |
| Simulator.GastoTrechoEntre | drone-sim-java-se/src/com/example/dronesim/service/Simulator.java:87-90 | a leg's consumption is at least 0.5 per km and at most (0.5 + 0.1 x load) per km |
| Simulator.TrechosBateria | drone-sim-java-se/src/com/example/dronesim/service/Simulator.java:86-110 | for orders of non-negative weight, the charge stays in [0, 100] and is above 20% after each leg, since an urgent recharge follows any leg ending at or below it |
| Simulator.TrechosConsumo | drone-sim-java-se/src/com/example/dronesim/service/Simulator.java:87-93 | for orders of non-negative weight, the legs consume at least 0.5 per km travelled |
| Simulator.SimulacaoLimitada | drone-sim-java-se/src/com/example/dronesim/service/Simulator.java:82-138 | for orders of non-negative weight, the drone ends its route with more than 20% and at most 100% of charge, and the consumption reported is at least 0.5 per km of the planned round trip |
| Simulator.Entregar | drone-sim-java-se/src/com/example/dronesim/service/Simulator.java:115 | the order becomes ENTREGUE and no other order changes |
| Simulator.VoarTrecho | drone-sim-java-se/src/com/example/dronesim/service/Simulator.java:86-118 | one leg updates charge, status, consumption, distance and recharges as the replay defines |
| Simulator.VoarRegresso | drone-sim-java-se/src/com/example/dronesim/service/Simulator.java:122-138 | the final leg lands the drone IDLE: recharged in place when at or below 20%, else at the base with its remaining charge |
| Simulator.SimularRota | drone-sim-java-se/src/com/example/dronesim/service/Simulator.java:69-138 | the route's consumption, recharges, distance and delivery count are the replay's; the drone ends as the replay says; exactly the route's orders become ENTREGUE |
| Simulator.RotasDe | drone-sim-java-se/src/com/example/dronesim/service/Simulator.java:62-64 | the routes are read from the plan in the given iteration order |
| Simulator.TotaisAte | drone-sim-java-se/src/com/example/dronesim/service/Simulator.java:51-143 | the running totals after the first k drones: empty routes skipped, deliveries and distance summed, consumption and recharges recorded under the drone's id |
| Simulator.Relatorio | drone-sim-java-se/src/com/example/dronesim/service/Simulator.java:147-149 | the report: the plan, the totals, the mean distance per delivery (0 without deliveries) and the drone with the longest route |
| Simulator.TotaisEntregas | drone-sim-java-se/src/com/example/dronesim/service/Simulator.java:113-147 | the deliveries counted equal the number of orders on all routes |
| Simulator.TotaisDistancia | drone-sim-java-se/src/com/example/dronesim/service/Simulator.java:86-129 | the distance counted equals the sum of the routes' planned round trips |
| Simulator.TotaisChaves | drone-sim-java-se/src/com/example/dronesim/service/Simulator.java:62-143 | the consumption and recharge maps have an entry exactly for the drones with a non-empty route |
| Simulator.TotaisValores | drone-sim-java-se/src/com/example/dronesim/service/Simulator.java:140-142 | each drone's entry is its own route's consumption and recharges when no later drone shares its identifier |
| Simulator.TotaisConsumoNaoNegativo | drone-sim-java-se/src/com/example/dronesim/service/Simulator.java:68-129 | for orders of non-negative weight, every consumption reported and the total distance are non-negative |
| Simulator.RelatorioCorreto | drone-sim-java-se/src/com/example/dronesim/service/Simulator.java:147-149 | the report holds the plan, counts every planned order as delivered, averages the distance per delivery (0 with none), keys its maps by the drones that flew, and names a drone with the longest route |
| Simulator.RelatorioPorDrone | drone-sim-java-se/src/com/example/dronesim/service/Simulator.java:140-142 | with distinct identifiers, each flying drone's consumption and recharges in the report are its route's replay |
| Simulator.SimularDrone | drone-sim-java-se/src/com/example/dronesim/service/Simulator.java:66-142 | one drone's turn replays its route and leaves the fleet as the replay defines |
| Simulator.TurnoSimulacao | drone-sim-java-se/src/com/example/dronesim/service/Simulator.java:62-143 | one iteration of the drone loop keeps the running totals equal to those of the first k + 1 drones |
| Simulator.RunSimulation | drone-sim-java-se/src/com/example/dronesim/service/Simulator.java:47-152 | the report is the one the replay of every route defines; every drone ends as its replay says and every planned order is ENTREGUE |
| SimulacaoAscii.Rumo | drone-sim-java-se/src/com/example/dronesim/service/Simulator.java:204-205 | the move per axis is at most one unit, zero exactly at the target, and closes the gap by one unit or to under one |
| SimulacaoAscii.Acao | drone-sim-java-se/src/com/example/dronesim/service/Simulator.java:179-192 | the action: an IDLE drone loads the order at its cursor (ALOCADO, CARREGANDO); a loading drone takes off |
| SimulacaoAscii.MovimentoVoo | drone-sim-java-se/src/com/example/dronesim/service/Simulator.java:197-240 | a flying drone within 1 km lands on its order, delivers it and advances its cursor, returning when none is left; farther away it moves one unit per axis for 0.5 of charge |
| SimulacaoAscii.MovimentoRegresso | drone-sim-java-se/src/com/example/dronesim/service/Simulator.java:242-266 | a returning drone within 1 km lands at the base, its cursor jumps to the end and it ends IDLE, recharged when at or below 20%; farther away it moves one unit per axis for 0.5 of charge |
| SimulacaoAscii.Movimento | drone-sim-java-se/src/com/example/dronesim/service/Simulator.java:197-266 | only a flying drone holding an order or a returning drone moves |
| SimulacaoAscii.Alerta | drone-sim-java-se/src/com/example/dronesim/service/Simulator.java:270-274 | a drone at or below 20% that is neither returning nor IDLE turns back and drops its order |
| SimulacaoAscii.PassoDrone | drone-sim-java-se/src/com/example/dronesim/service/Simulator.java:176-283 | one drone's step: skipped when IDLE at the end of its route, else action, movement and low-charge check, active when it moved or is not IDLE |
| SimulacaoAscii.PassoSeguranca | drone-sim-java-se/src/com/example/dronesim/service/Simulator.java:270-274 | after a step a drone at or below 20% is returning or IDLE, and a returning drone holds no order |
| SimulacaoAscii.AlocacaoCoerente | drone-sim-java-se/src/com/example/dronesim/service/Simulator.java:161-162 | a drone as allocation leaves it, with its cursor at 0, is coherent with its route |
| SimulacaoAscii.PassoCoerente | drone-sim-java-se/src/com/example/dronesim/service/Simulator.java:176-274 | a step keeps a drone coherent: cursor within the route, the order held is the one at the cursor, charge in [0, 100] |
| SimulacaoAscii.PassoInativo | drone-sim-java-se/src/com/example/dronesim/service/Simulator.java:179-283 | a step is inactive exactly for an IDLE drone at the end of its route, and then changes nothing |
| SimulacaoAscii.PassoEmOrdem | drone-sim-java-se/src/com/example/dronesim/service/Simulator.java:185-225 | a step marks at most the order at the cursor: ALOCADO on loading, or ENTREGUE on delivery with the cursor advanced by one |
| SimulacaoAscii.PassoDesloca | drone-sim-java-se/src/com/example/dronesim/service/Simulator.java:203-264 | a step moves a drone by at most one unit per axis |
| SimulacaoAscii.PassoPedido | drone-sim-java-se/src/com/example/dronesim/service/Simulator.java:185-273 | after a step a drone holds no order, the one it held, or the order at its cursor |
| SimulacaoAscii.VoarParaPedido | drone-sim-java-se/src/com/example/dronesim/service/Simulator.java:197-240 | a flying drone's move or delivery is the one the step defines |
| SimulacaoAscii.VoltarParaBase | drone-sim-java-se/src/com/example/dronesim/service/Simulator.java:242-266 | a returning drone's move or landing is the one the step defines |
| SimulacaoAscii.MoverDrone | drone-sim-java-se/src/com/example/dronesim/service/Simulator.java:197-266 | the movement phase is the one the step defines |
| SimulacaoAscii.Agir | drone-sim-java-se/src/com/example/dronesim/service/Simulator.java:179-192 | the action phase loads the next order of an IDLE drone or starts a loading drone's flight |
| SimulacaoAscii.AvancarDrone | drone-sim-java-se/src/com/example/dronesim/service/Simulator.java:176-283 | one drone's step, including the low-charge turn back, is the one the step defines |
| SimulacaoAscii.PassoNaFrota | drone-sim-java-se/src/com/example/dronesim/service/Simulator.java:172-284 | the step of drone k leaves the fleet and cursors as the pass defines for the first k + 1 drones |
| SimulacaoAscii.RodadaAte | drone-sim-java-se/src/com/example/dronesim/service/Simulator.java:172-284 | a pass over the first k drones: each steps once in plan order, and the pass is active when any of them was |
| SimulacaoAscii.Avancar | drone-sim-java-se/src/com/example/dronesim/service/Simulator.java:168-288 | up to n passes, stopping after the first pass that finds no drone active |
| SimulacaoAscii.Rodada | drone-sim-java-se/src/com/example/dronesim/service/Simulator.java:169-284 | one pass over the fleet leaves drones, cursors, order statuses and the active flag as the pass defines |
| SimulacaoAscii.RunSimulationAscii | drone-sim-java-se/src/com/example/dronesim/service/Simulator.java:157-289 | after the given number of passes the drones and the order statuses are those the passes define, and it reports whether the loop's stop condition was reached |
| SimulacaoAscii.AvancarParado | drone-sim-java-se/src/com/example/dronesim/service/Simulator.java:164-169 | once a pass finds no drone active, further passes change nothing |
| SimulacaoAscii.RodadaCoerente | drone-sim-java-se/src/com/example/dronesim/service/Simulator.java:172-284 | a pass keeps every drone coherent with its route |
| SimulacaoAscii.RodadaInativa | drone-sim-java-se/src/com/example/dronesim/service/Simulator.java:169-283 | a pass finds no drone active exactly when every drone is IDLE at the end of its route |
| SimulacaoAscii.AvancarCoerente | drone-sim-java-se/src/com/example/dronesim/service/Simulator.java:168-288 | any number of passes keeps every drone coherent with its route |
| SimulacaoAscii.AvancarConcluida | drone-sim-java-se/src/com/example/dronesim/service/Simulator.java:168-288 | when the loop stops every drone is IDLE with its cursor at the end of its route |
| SimulacaoAscii.InicioCoerente | drone-sim-java-se/src/com/example/dronesim/service/Simulator.java:161-162 | the fleet as allocation leaves it, with every cursor at 0, is coherent |
| Cenario.CenarioOrdenado | drone-sim-java-se/src/com/example/dronesim/service/DroneService.java:97-100 | the test's orders A (ALTA), B (BAIXA), C (MEDIA) sort to A, C, B |
| Cenario.CenarioDistancias | drone-sim-java-se/src/com/example/dronesim/service/TesteUnitario.java:81-86 | A's round trip is at most 30 km, B's at most 4 km, C's at least 400 km, and any 2-stop route through C at least 200 km |
| Cenario.RotasInviaveis | drone-sim-java-se/src/com/example/dronesim/service/TesteUnitario.java:81-86 | for a drone of at most 15 kg and 150 km, the trio and the routes A-C, A-B, C-B and C alone are invalid |
| Cenario.CenarioPesos | drone-sim-java-se/src/com/example/dronesim/service/TesteUnitario.java:82-86 | the three orders weigh 17 kg together and A with B 16 kg |
| Cenario.SemTrioNemPar | drone-sim-java-se/src/com/example/dronesim/service/DroneService.java:150-174 | among the orders left at each turn of the scenario no valid trio or pair exists |
| Cenario.PrimeiraEscolha | drone-sim-java-se/src/com/example/dronesim/service/DroneService.java:145-190 | the 10 kg/100 km drone takes A alone |
| Cenario.SegundaEscolha | drone-sim-java-se/src/com/example/dronesim/service/DroneService.java:145-190 | the 12 kg/120 km drone takes B alone |
| Cenario.NenhumaEscolha | drone-sim-java-se/src/com/example/dronesim/service/DroneService.java:177-189 | no drone of the default fleet can take C |
| Cenario.RestantesAposA | drone-sim-java-se/src/com/example/dronesim/service/DroneService.java:128 | after A is taken, C and B remain |
| Cenario.RestantesAposB | drone-sim-java-se/src/com/example/dronesim/service/DroneService.java:128 | after B is taken, C remains |
| Cenario.CenarioCauda | drone-sim-java-se/src/com/example/dronesim/service/DroneService.java:106-130 | the last three drones take nothing and C remains |
| Cenario.CenarioSegundo | drone-sim-java-se/src/com/example/dronesim/service/DroneService.java:106-130 | from the second drone on, B is taken and C remains |
| Cenario.CenarioRotas | drone-sim-java-se/src/com/example/dronesim/service/DroneService.java:106-130 | the default fleet's routes are A, B and three empty ones, with C left over |
| Cenario.CenarioAlocacao | drone-sim-java-se/src/com/example/dronesim/service/TesteUnitario.java:88-100 | the scenario allocates A to the first drone and B to the second, two orders in all, and reclassifies A and B ALOCADO and C NAO_ATENDIDO |
| Cenario.TodosPendentes | drone-sim-java-se/src/com/example/dronesim/service/DroneService.java:91-94 | when every order is PENDENTE the collection keeps the whole list |
| Cenario.ResultadoCenario | drone-sim-java-se/src/com/example/dronesim/service/TesteUnitario.java:88-100 | the plan's routes total two orders and the statuses end ALOCADO, ALOCADO, NAO_ATENDIDO |
| Cenario.NovoCenario | drone-sim-java-se/src/com/example/dronesim/service/TesteUnitario.java:81-86 | a fresh service with the default fleet and the three test orders, all PENDENTE |
| Cenario.PlanejarCenario | drone-sim-java-se/src/com/example/dronesim/service/TesteUnitario.java:88-100 | the service's allocation places two orders and marks C NAO_ATENDIDO |
| Cenario.TesteAlocacaoPriorizacao | drone-sim-java-se/src/com/example/dronesim/service/TesteUnitario.java:77-101 | the unit test's assertions hold: two orders allocated and C NAO_ATENDIDO |

## Left out

- `App.java` (the console menu and input) is not part of this model.
- `AsciiMap.java` (the map rendering) is not part of this model. Neither are the console messages, the proximity alert of the stepped simulation (it only prints), or the pause between passes (`Thread.sleep` with `stepMillis`).
- Floating point: distances, weights and charges are mathematical reals.
- `Math.sqrt` is a parameter `sqrt`. The members that need geometry require it to be the true square root (`IsSqrt`).
- The order's random UUID and the clock reading for its arrival time are parameters of `Pedido`'s constructor and of `CriarPedido`.
- The static drone counter of `Drone` is an explicit `DroneIds` object passed to the constructors.
- `HashMap` iteration order is unspecified in Java. The methods that iterate over a plan take an explicit sequence `ordem` of the plan's drones.
- The stepped simulation's per-drone route index map is a sequence `cursores` aligned with `ordem`.
- The list accessors (`listarDrones`, `listarPedidos`) and the field getters are plain reads of the model's fields.
- `SimulationReport.toString` is not modelled.
- The enum values that no core code uses (ENTREGANDO, RECARREGANDO, NAO_IDLE_ALOCADO, EM_ENTREGA) are declared but play no part.
- Simulator.TrechosBateria: proved only for orders of non-negative weight. `criarPedido` accepts negative weights, and such an order makes its legs raise the charge, possibly above 100%.
- Simulator.TrechosConsumo: proved only for orders of non-negative weight; with a negative weight a leg's cost per km falls below 0.5.
- Simulator.SimulacaoLimitada: proved only for orders of non-negative weight; an order of -20 kg at (3, 4) ends the replay above 100% of charge.
- Simulator.TotaisConsumoNaoNegativo: proved only for routes whose orders have non-negative weight; a negative weight can make a drone's reported consumption negative.
- SimulacaoAscii.RunSimulationAscii: the `while` loop of the source runs until no drone is active. The model runs at most `passos` passes and reports whether it stopped. Termination of the unbounded loop is not proved. `AvancarParado` shows that further passes change nothing once it has stopped.
- Service.DroneService.GetPedidosDoDrone: states the multiset of orders and that the list is sorted. It does not state the relative order of orders with equal priority and arrival time, which depends on the `HashMap` iteration of the source.
- Cenario.TesteAlocacaoPriorizacao: runs the allocation test on a fresh service. `runAllTests` shares one service across its tests, so there the 15 kg order left by the weight test is pending too: `resetPedidos` (DroneService.java:25-33) only sets every order back to PENDENTE. In that run the order sits at (1, 1), and the fourth drone (15 kg, 150 km) takes it. Three orders are then allocated rather than the two the test expects, and C is still NAO_ATENDIDO. That shared-state run is not modelled.
