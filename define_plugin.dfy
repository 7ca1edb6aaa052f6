/** The plugin authoring helper of packages/plugin/src/index.ts: one function
    with three call shapes that builds a plugin record. */
module PluginApi {
  import opened Common

  /** The static application surface a plugin may declare. */
  datatype App = App(dir: string, settingUrl: Option<string>)

  /** An options factory; functions are identified by an opaque number. */
  datatype OptionsConstructor = OptionsConstructor(fid: nat)

  /** The first argument: an `App` object or an options factory. */
  datatype FirstArg = AppArg(app: App) | OptionsArg(options: OptionsConstructor)

  /** The built record; it has no fields other than these two. */
  datatype PluginRecord = PluginRecord(app: Option<App>, options: Option<OptionsConstructor>)

  /** definePlugin(app), definePlugin(options) and definePlugin(app, options). The
      second argument is looked at only after an object first argument. */
  function DefinePlugin(arg1: FirstArg, arg2: Option<OptionsConstructor>): (p: PluginRecord)
    ensures arg1.AppArg? ==> p.app == Some(arg1.app)
    ensures arg1.AppArg? ==> (p.options.Some? <==> arg2.Some?) && (arg2.Some? ==> p.options == arg2)
    ensures arg1.OptionsArg? ==> p.options == Some(arg1.options) && p.app.None?
  {
    match arg1
    case AppArg(app) => PluginRecord(Some(app), arg2)
    case OptionsArg(options) => PluginRecord(None, Some(options))
  }

  /** The record determines the call: an app record comes only from an object first
      argument, and two calls that build the same record passed the same arguments
      (up to the second argument, which an options-first call ignores). */
  lemma DefinePluginDeterminesCall(a1: FirstArg, b1: Option<OptionsConstructor>,
                                    a2: FirstArg, b2: Option<OptionsConstructor>)
    requires DefinePlugin(a1, b1) == DefinePlugin(a2, b2)
    ensures a1 == a2
    ensures a1.AppArg? ==> b1 == b2
  {
    var p := DefinePlugin(a1, b1);
    if a1.AppArg? {
      assert p.app.Some?;
      assert a2.AppArg?;
    } else {
      assert p.app.None?;
      assert a2.OptionsArg?;
    }
  }
}
