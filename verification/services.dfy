/** The service container: four optional slots a front end fills once each
    (asset loader, render context, input manager, fantasy console). The
    services themselves are opaque, so the container is generic in their
    four types. */
module Services {
  import opened Wrappers

  /** Registering a service whose slot is already filled. */
  datatype AlreadyRegisteredError = AlreadyRegisteredError

  /** Requesting a service whose slot is still empty. */
  datatype NotYetRegisteredError = NotYetRegisteredError

  /** `ServiceContainer`: one optional slot per service kind. */
  datatype ServiceContainer<A, R, I, V> = ServiceContainer(
    assetLoader: Option<A>,
    renderContext: Option<R>,
    inputManager: Option<I>,
    vfc: Option<V>)

  /** The four kinds of slot. */
  datatype SlotKind = AssetLoaderSlot | RenderContextSlot | InputManagerSlot | VfcSlot

  /** The kinds whose slots are filled. */
  function Registered<A, R, I, V>(c: ServiceContainer<A, R, I, V>): (ks: set<SlotKind>)
    ensures AssetLoaderSlot in ks <==> c.assetLoader.Some?
    ensures RenderContextSlot in ks <==> c.renderContext.Some?
    ensures InputManagerSlot in ks <==> c.inputManager.Some?
    ensures VfcSlot in ks <==> c.vfc.Some?
  {
    (if c.assetLoader.Some? then {AssetLoaderSlot} else {})
    + (if c.renderContext.Some? then {RenderContextSlot} else {})
    + (if c.inputManager.Some? then {InputManagerSlot} else {})
    + (if c.vfc.Some? then {VfcSlot} else {})
  }

  /** `ServiceContainer::default`: no service registered. */
  function Default<A, R, I, V>(): (c: ServiceContainer<A, R, I, V>)
    ensures c.assetLoader == None && c.renderContext == None
    ensures c.inputManager == None && c.vfc == None
  {
    ServiceContainer(None, None, None, None)
  }

  /** `ServiceContainer::new`: delegates to `default`. */
  function New<A, R, I, V>(): (c: ServiceContainer<A, R, I, V>)
    ensures Registered(c) == {}
    ensures c == Default()
  {
    Default()
  }

  /** The write-once rule shared by every `register_*`: an empty slot takes
      the service, a filled one keeps its service and reports the error. */
  function RegisterSlot<T>(slot: Option<T>, service: T): (r: (Option<T>, Result<(), AlreadyRegisteredError>))
    ensures r.1.Ok? <==> slot.None?
    ensures r.1.Ok? ==> r.0 == Some(service)
    ensures r.1.Err? ==> r.0 == slot
  {
    if slot.Some? then (slot, Err(AlreadyRegisteredError))
    else (Some(service), Ok(()))
  }

  /** The read rule shared by every `*_mut`: the stored service, or the error
      when the slot is empty. */
  function SlotMut<T>(slot: Option<T>): (r: Result<T, NotYetRegisteredError>)
    ensures r.Err? <==> slot.None?
    ensures r.Ok? ==> slot == Some(r.value)
  {
    match slot
    case None => Err(NotYetRegisteredError)
    case Some(service) => Ok(service)
  }

  /** `register_asset_loader`. */
  function RegisterAssetLoader<A, R, I, V>(c: ServiceContainer<A, R, I, V>, loader: A)
    : (r: (ServiceContainer<A, R, I, V>, Result<(), AlreadyRegisteredError>))
    ensures r.1.Ok? <==> AssetLoaderSlot !in Registered(c)
    ensures r.1.Ok? ==> r.0.assetLoader == Some(loader)
    ensures r.1.Err? ==> r.0 == c
    ensures Registered(r.0) == Registered(c) + {AssetLoaderSlot}
    ensures r.0.renderContext == c.renderContext && r.0.inputManager == c.inputManager
      && r.0.vfc == c.vfc
  {
    var (slot, result) := RegisterSlot(c.assetLoader, loader);
    (c.(assetLoader := slot), result)
  }

  /** `asset_loader_mut`. */
  function AssetLoaderMut<A, R, I, V>(c: ServiceContainer<A, R, I, V>): (r: Result<A, NotYetRegisteredError>)
    ensures r.Err? <==> AssetLoaderSlot !in Registered(c)
    ensures r.Ok? ==> c.assetLoader == Some(r.value)
  {
    SlotMut(c.assetLoader)
  }

  /** `register_render_context`. */
  function RegisterRenderContext<A, R, I, V>(c: ServiceContainer<A, R, I, V>, context: R)
    : (r: (ServiceContainer<A, R, I, V>, Result<(), AlreadyRegisteredError>))
    ensures r.1.Ok? <==> RenderContextSlot !in Registered(c)
    ensures r.1.Ok? ==> r.0.renderContext == Some(context)
    ensures r.1.Err? ==> r.0 == c
    ensures Registered(r.0) == Registered(c) + {RenderContextSlot}
    ensures r.0.assetLoader == c.assetLoader && r.0.inputManager == c.inputManager
      && r.0.vfc == c.vfc
  {
    var (slot, result) := RegisterSlot(c.renderContext, context);
    (c.(renderContext := slot), result)
  }

  /** `render_context_mut`. */
  function RenderContextMut<A, R, I, V>(c: ServiceContainer<A, R, I, V>): (r: Result<R, NotYetRegisteredError>)
    ensures r.Err? <==> RenderContextSlot !in Registered(c)
    ensures r.Ok? ==> c.renderContext == Some(r.value)
  {
    SlotMut(c.renderContext)
  }

  /** `register_input_manager`. */
  function RegisterInputManager<A, R, I, V>(c: ServiceContainer<A, R, I, V>, input: I)
    : (r: (ServiceContainer<A, R, I, V>, Result<(), AlreadyRegisteredError>))
    ensures r.1.Ok? <==> InputManagerSlot !in Registered(c)
    ensures r.1.Ok? ==> r.0.inputManager == Some(input)
    ensures r.1.Err? ==> r.0 == c
    ensures Registered(r.0) == Registered(c) + {InputManagerSlot}
    ensures r.0.assetLoader == c.assetLoader && r.0.renderContext == c.renderContext
      && r.0.vfc == c.vfc
  {
    var (slot, result) := RegisterSlot(c.inputManager, input);
    (c.(inputManager := slot), result)
  }

  /** `input_manager_mut`. */
  function InputManagerMut<A, R, I, V>(c: ServiceContainer<A, R, I, V>): (r: Result<I, NotYetRegisteredError>)
    ensures r.Err? <==> InputManagerSlot !in Registered(c)
    ensures r.Ok? ==> c.inputManager == Some(r.value)
  {
    SlotMut(c.inputManager)
  }

  /** `register_vfc`. */
  function RegisterVfc<A, R, I, V>(c: ServiceContainer<A, R, I, V>, vfc: V)
    : (r: (ServiceContainer<A, R, I, V>, Result<(), AlreadyRegisteredError>))
    ensures r.1.Ok? <==> VfcSlot !in Registered(c)
    ensures r.1.Ok? ==> r.0.vfc == Some(vfc)
    ensures r.1.Err? ==> r.0 == c
    ensures Registered(r.0) == Registered(c) + {VfcSlot}
    ensures r.0.assetLoader == c.assetLoader && r.0.renderContext == c.renderContext
      && r.0.inputManager == c.inputManager
  {
    var (slot, result) := RegisterSlot(c.vfc, vfc);
    (c.(vfc := slot), result)
  }

  /** `vfc_mut`. */
  function VfcMut<A, R, I, V>(c: ServiceContainer<A, R, I, V>): (r: Result<V, NotYetRegisteredError>)
    ensures r.Err? <==> VfcSlot !in Registered(c)
    ensures r.Ok? ==> c.vfc == Some(r.value)
  {
    SlotMut(c.vfc)
  }

  /** One registration call, as a value. */
  datatype Registration<A, R, I, V> =
    | AssetLoader(loader: A)
    | RenderContext(context: R)
    | InputManager(input: I)
    | Vfc(console: V)

  /** The slot a registration targets. */
  function KindOf<A, R, I, V>(reg: Registration<A, R, I, V>): SlotKind {
    match reg
    case AssetLoader(_) => AssetLoaderSlot
    case RenderContext(_) => RenderContextSlot
    case InputManager(_) => InputManagerSlot
    case Vfc(_) => VfcSlot
  }

  /** Performs one registration call. */
  function Register<A, R, I, V>(c: ServiceContainer<A, R, I, V>, reg: Registration<A, R, I, V>)
    : (r: (ServiceContainer<A, R, I, V>, Result<(), AlreadyRegisteredError>))
    ensures r.1.Err? <==> KindOf(reg) in Registered(c)
    ensures r.1.Err? ==> r.0 == c
    ensures Registered(r.0) == Registered(c) + {KindOf(reg)}
    ensures reg.AssetLoader? && r.1.Ok? ==> r.0.assetLoader == Some(reg.loader)
    ensures reg.RenderContext? && r.1.Ok? ==> r.0.renderContext == Some(reg.context)
    ensures reg.InputManager? && r.1.Ok? ==> r.0.inputManager == Some(reg.input)
    ensures reg.Vfc? && r.1.Ok? ==> r.0.vfc == Some(reg.console)
    ensures KindOf(reg) != AssetLoaderSlot ==> r.0.assetLoader == c.assetLoader
    ensures KindOf(reg) != RenderContextSlot ==> r.0.renderContext == c.renderContext
    ensures KindOf(reg) != InputManagerSlot ==> r.0.inputManager == c.inputManager
    ensures KindOf(reg) != VfcSlot ==> r.0.vfc == c.vfc
  {
    match reg
    case AssetLoader(s) => RegisterAssetLoader(c, s)
    case RenderContext(s) => RegisterRenderContext(c, s)
    case InputManager(s) => RegisterInputManager(c, s)
    case Vfc(s) => RegisterVfc(c, s)
  }

  /** Performs a sequence of registration calls, ignoring their results. */
  function RegisterAll<A, R, I, V>(c: ServiceContainer<A, R, I, V>, regs: seq<Registration<A, R, I, V>>)
    : (r: ServiceContainer<A, R, I, V>)
    decreases |regs|
  {
    if |regs| == 0 then c else RegisterAll(Register(c, regs[0]).0, regs[1..])
  }

  /** After any sequence of registrations, the filled slots are those filled
      before plus the kinds registered: no slot is ever emptied. */
  lemma {:induction false} RegisteredGrows<A, R, I, V>(c: ServiceContainer<A, R, I, V>, regs: seq<Registration<A, R, I, V>>)
    ensures Registered(RegisterAll(c, regs)) == Registered(c) + set i | 0 <= i < |regs| :: KindOf(regs[i])
    decreases |regs|
  {
    if |regs| > 0 {
      var c' := Register(c, regs[0]).0;
      RegisteredGrows(c', regs[1..]);
      var rest := set i | 0 <= i < |regs[1..]| :: KindOf(regs[1..][i]);
      var all := set i | 0 <= i < |regs| :: KindOf(regs[i]);
      assert all == {KindOf(regs[0])} + rest by {
        forall k | k in all ensures k in {KindOf(regs[0])} + rest {
          var i :| 0 <= i < |regs| && KindOf(regs[i]) == k;
          if i > 0 {
            assert KindOf(regs[1..][i - 1]) == k;
          }
        }
        forall k | k in rest ensures k in all {
          var i :| 0 <= i < |regs[1..]| && KindOf(regs[1..][i]) == k;
          assert KindOf(regs[i + 1]) == k;
        }
      }
    }
  }

  /** Write-once: a service already registered stays the one registered,
      whatever registrations follow. */
  lemma {:induction false} WriteOnce<A, R, I, V>(c: ServiceContainer<A, R, I, V>, regs: seq<Registration<A, R, I, V>>)
    ensures c.assetLoader.Some? ==> RegisterAll(c, regs).assetLoader == c.assetLoader
    ensures c.renderContext.Some? ==> RegisterAll(c, regs).renderContext == c.renderContext
    ensures c.inputManager.Some? ==> RegisterAll(c, regs).inputManager == c.inputManager
    ensures c.vfc.Some? ==> RegisterAll(c, regs).vfc == c.vfc
    decreases |regs|
  {
    if |regs| > 0 {
      var c' := Register(c, regs[0]).0;
      WriteOnce(c', regs[1..]);
    }
  }

  /** Starting from an empty container, the asset loader slot holds the
      loader of the first asset loader registration, if any. */
  lemma {:induction false} FirstAssetLoaderWins<A, R, I, V>(c: ServiceContainer<A, R, I, V>,
                                                           regs: seq<Registration<A, R, I, V>>, k: nat)
    requires c.assetLoader.None?
    requires k < |regs| && regs[k].AssetLoader?
    requires forall i :: 0 <= i < k ==> !regs[i].AssetLoader?
    ensures RegisterAll(c, regs).assetLoader == Some(regs[k].loader)
    decreases k
  {
    var c' := Register(c, regs[0]).0;
    if k == 0 {
      WriteOnce(c', regs[1..]);
    } else {
      FirstAssetLoaderWins(c', regs[1..], k - 1);
    }
  }
}
