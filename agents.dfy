/**
 * The agent record the core reads. agents/agent.py gives an agent its
 * residence node (a graph.py Node, here its id) and its SEIR compartment.
 * agents/sector.py also reads `minimum_salary` to total firm activity; no
 * shown class defines it, so it is a field of the record here. The core
 * never updates an agent, so an agent is a value.
 */
module Agents {

  /** The compartments of the SEIR(D) model; agents/core.py tests for `'I'`. */
  datatype Compartment = S | E | I | R | D

  datatype Agent = Agent(residenceNode: int, compartment: Compartment, minimumSalary: real)
}
