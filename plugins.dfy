/** The plugin host's side of hook registration: the build-lifecycle events a plugin can
    hook and the list of (event, handler) registrations that `add_hook` builds up. */
module Plugins {

  /** The lifecycle events the two plugins hook. */
  datatype Event = PreInit | PreShell | PreChroot | PreYum | PostInit | PostShell | PostChroot | PostYum

  /** The bound handler methods the two plugins register. */
  datatype Handler =
    | RootCachePreInit | RootCachePreShell | RootCachePreYum | RootCachePostInit | RootCachePostShell
    | SelinuxPreYum | SelinuxPostYum

  datatype Registration = Registration(event: Event, handler: Handler)

  class PluginHost {
    /** Every `add_hook(event, handler)` call so far, in order. */
    var hooks: seq<Registration>

    constructor ()
      ensures hooks == []
    {
      hooks := [];
    }

    method AddHook(event: Event, handler: Handler)
      modifies this
      ensures hooks == old(hooks) + [Registration(event, handler)]
    {
      hooks := hooks + [Registration(event, handler)];
    }
  }
}
