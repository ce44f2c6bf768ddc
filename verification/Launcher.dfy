// core/src/launcher_main.cpp: the launcher's two pipeline handlers, which supervise at most one agent.
module Launcher {
  import opened Options
  import opened PoolProtocol

  predicate HasPathTraversalChars(model: string) {
    '/' in model || '\\' in model || ':' in model
    || exists i :: 0 <= i < |model| - 1 && model[i] == '.' && model[i + 1] == '.'
  }

  // No path: no separator, no drive, no way up.
  ghost predicate IsPlainName(name: string) {
    && name != "" && (forall i :: 0 <= i < |name| ==> name[i] != '/' && name[i] != '\\' && name[i] != ':')
    && (forall i :: 0 < i < |name| && name[i] == '.' ==> name[i - 1] != '.')
  }

  lemma {:induction false} PlainIffNoTraversal(name: string)
    ensures IsPlainName(name) <==> name != "" && !HasPathTraversalChars(name)
  {
    if i :| 0 < i < |name| && name[i] == '.' && name[i - 1] == '.' {
      assert name[i - 1] == '.' && name[i - 1 + 1] == '.';
    }
  }

  // What the handlers meet outside: the model files there are, and whether an agent spawns and becomes healthy.
  datatype Surroundings = Surroundings(models: set<string>, spawns: bool, healthy: bool)

  // How a POST ends.
  function Answer(model: Option<string>, out: Surroundings): int {
    if model == None || model.value == "" || HasPathTraversalChars(model.value) then 400
    else if model.value !in out.models then 404
    else if out.spawns && out.healthy then 200
    else 500
  }

  function OutcomeOf(status: int): Outcome {
    if status == 200 then Started else if status == 500 then NeverHealthy else Rejected
  }

  class Launcher {
    // The model of the running agent.
    var currentAgent: Option<string>

    constructor ()
      ensures currentAgent == None
    {
      currentAgent := None;
    }

    // POST /pipeline, with the "model" field of the body. The old agent is stopped only once a file for the model was
    // found, and then in any case; a new one runs exactly when the answer is 200. That is how the pool protocol lets
    // a machine handle the command.
    method PostPipeline(model: Option<string>, out: Surroundings) returns (status: int)
      modifies this
      ensures status == Answer(model, out)
      // What the status tells: 400 for a name that is no plain file name, 404 for a model without a file, and 200
      // exactly when the agent was spawned and became healthy.
      ensures status == 400 <==> !(model.Some? && IsPlainName(model.value))
      ensures status == 404 <==> model.Some? && IsPlainName(model.value) && model.value !in out.models
      ensures status == 200
         <==> model.Some? && IsPlainName(model.value) && model.value in out.models && out.spawns && out.healthy
      ensures currentAgent == if status == 200 then model else if status == 500 then None else old(currentAgent)
      ensures model.Some? ==> forall tag, later ::
                Handle(Machine([Post(model.value, tag)] + later, old(currentAgent)), OutcomeOf(status))
                    == Machine(later, currentAgent)
    {
      forall m, tag, later: seq<Command> ensures ([Post(m, tag)] + later)[1..] == later {}
      if model.Some? {
        PlainIffNoTraversal(model.value);
      }
      if model == None || model.value == "" {
        return 400;
      }
      if HasPathTraversalChars(model.value) {
        return 400;
      }
      if model.value !in out.models {
        return 404;
      }
      currentAgent := None;
      if !out.spawns {
        return 500;
      }
      if !out.healthy {
        return 500;
      }
      currentAgent := model;
      return 200;
    }

    // DELETE /pipeline
    method DeletePipeline() returns (status: int)
      modifies this
      ensures status == 204 && currentAgent == None
      ensures forall later, outcome ::
                Handle(Machine([Delete] + later, old(currentAgent)), outcome) == Machine(later, currentAgent)
    {
      forall later: seq<Command> ensures ([Delete] + later)[1..] == later {}
      currentAgent := None;
      return 204;
    }
  }
}
