/** The executor plugin's state (plugin.go): its map of recorded executions and `Configure`. */
module Plugin {
  import opened Options

  /** `*PluginWorkflow`: what the plugin remembers about one workflow run, namely the id of
      the AWS execution it started and, for lambda functions, a status and message that the
      asynchronous runner updates in place. */
  class PluginWorkflow {
    var id: string
    var status: string
    var message: string

    constructor (id: string, status: string, message: string)
      ensures this.id == id && this.status == status && this.message == message
    {
      this.id := id;
      this.status := status;
      this.message := message;
    }
  }

  /** `*ExecutorPlugin`. `workflows` is `Workflows`, keyed by the workflow run's uid; `None`
      is a nil map, which reads as empty and cannot be written. The cluster client
      configuration and the client itself are represented by whether they are present. */
  class ExecutorPlugin {
    var workflows: Option<map<string, PluginWorkflow>>
    var hasClientConfig: bool
    var hasClient: bool

    /** `&ExecutorPlugin{}`: nothing configured yet. */
    constructor ()
      ensures workflows.None? && !hasClientConfig && !hasClient
    {
      workflows := None;
      hasClientConfig := false;
      hasClient := false;
    }

    /** The record kept for a workflow run, looked up the way a Go map reads: a nil map and a
        missing key both give nothing. */
    function Lookup(workflowID: string): (w: Option<PluginWorkflow>)
      reads this
      ensures w.Some? <==> workflows.Some? && workflowID in workflows.value
      ensures w.Some? ==> w.value == workflows.value[workflowID]
    {
      if workflows.Some? && workflowID in workflows.value then Some(workflows.value[workflowID]) else None
    }

    /** Every record the plugin holds. */
    function Records(): set<PluginWorkflow>
      reads this
    {
      if workflows.Some? then workflows.value.Values else {}
    }

    /** `ex.Workflows[workflowID] = wf`, which needs an initialised map. */
    method Put(workflowID: string, wf: PluginWorkflow)
      requires workflows.Some?
      modifies this`workflows
      ensures workflows == Some(old(workflows.value)[workflowID := wf])
      ensures Lookup(workflowID) == Some(wf)
      ensures forall k :: k != workflowID ==> Lookup(k) == old(Lookup(k))
    {
      workflows := Some(workflows.value[workflowID := wf]);
    }

    /** plugin.go: `Configure`. Obtaining the in-cluster configuration and building the
        client happen only when they are missing and may fail (`configError`, `clientError`,
        whose messages are returned); after both, a nil `Workflows` becomes an empty map and an
        existing one is kept with all its records. */
    method Configure(configError: Option<string>, clientError: Option<string>) returns (err: Option<string>)
      modifies this
      ensures err.Some? <==>
        || (!old(hasClientConfig) && configError.Some?)
        || ((old(hasClientConfig) || configError.None?) && !old(hasClient) && clientError.Some?)
      ensures err == (if !old(hasClientConfig) && configError.Some? then configError
                      else if !old(hasClient) then clientError
                      else None)
      ensures hasClientConfig == (old(hasClientConfig) || configError.None?)
      ensures hasClient == (old(hasClient) || err.None?)
      ensures err.None? ==> hasClientConfig && hasClient
      ensures err.None? && old(workflows).None? ==> workflows == Some(map[])
      ensures err.Some? || old(workflows).Some? ==> workflows == old(workflows)
    {
      if !hasClientConfig {
        if configError.Some? {
          return configError;
        }
        hasClientConfig := true;
      }
      if !hasClient {
        if clientError.Some? {
          return clientError;
        }
        hasClient := true;
      }
      if workflows.None? {
        workflows := Some(map[]);
      }
      return None;
    }
  }
}
