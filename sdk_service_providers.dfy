/** The service providers handed to scripts: SdkUtilServiceProvider (types marked as
  * SDK-util services only) and SdkServiceProvider (types marked as SDK services, or
  * every type in unsafe mode). Each wraps a DI scope and disposes it with itself.
  * The attribute test `IsDefined(...Attribute)` is membership in a set of type names. */
module ScriptServices {
  import opened Wrappers
  import opened Models
  import opened Errors

  /** A service instance, by identity. */
  type ServiceRef = nat

  /** IServiceScope: resolves service types (None when nothing is registered) until
    * it is disposed. */
  class DiScope {
    const resolve: TypeName -> Option<ServiceRef>
    var disposed: bool

    constructor(resolve: TypeName -> Option<ServiceRef>)
      ensures this.resolve == resolve && !disposed
    {
      this.resolve := resolve;
      disposed := false;
    }

    method Dispose()
      modifies this
      ensures disposed
    {
      disposed := true;
    }
  }

  /** ValidateAccess of both providers: in unsafe mode every type passes; otherwise only
    * the marked types do, and any other is denied with ServiceAccessDenied. */
  function AccessCheck(marked: set<TypeName>, unsafeMode: bool, service: TypeName): (r: Outcome<Error>)
    ensures r.Pass? <==> unsafeMode || service in marked
    ensures r.Fail? ==> r.error == ServiceAccessDenied(service)
  {
    if unsafeMode then Pass
    else if service !in marked then Fail(ServiceAccessDenied(service))
    else Pass
  }

  /** GetService, both overloads: the access check, then the scope's own lookup, which
    * a disposed scope refuses. */
  function Resolve(marked: set<TypeName>, unsafeMode: bool, scopeResolve: TypeName -> Option<ServiceRef>,
                   disposed: bool, service: TypeName): (r: Result<Option<ServiceRef>, Error>)
    ensures AccessCheck(marked, unsafeMode, service).Fail? ==> r == Failure(ServiceAccessDenied(service))
    ensures AccessCheck(marked, unsafeMode, service).Pass? && !disposed ==> r == Success(scopeResolve(service))
    ensures AccessCheck(marked, unsafeMode, service).Pass? && disposed ==> r == Failure(ObjectDisposed)
  {
    match AccessCheck(marked, unsafeMode, service)
    case Fail(e) => Failure(e)
    case Pass => if disposed then Failure(ObjectDisposed) else Success(scopeResolve(service))
  }

  /** Unsafe mode never denies; safe mode denies exactly the unmarked types, and
    * which type is asked for decides nothing else. */
  lemma UnsafeModeNeverDenies(marked: set<TypeName>, scopeResolve: TypeName -> Option<ServiceRef>,
                              disposed: bool, service: TypeName)
    ensures !Resolve(marked, true, scopeResolve, disposed, service).Failure?
         || Resolve(marked, true, scopeResolve, disposed, service).error != ServiceAccessDenied(service)
    ensures Resolve(marked, true, scopeResolve, disposed, service)
         == Resolve(marked + {service}, false, scopeResolve, disposed, service)
  {
  }

  /** The util provider is the SDK provider's check with unsafe mode off. */
  lemma DeniedExactlyWhenUnmarked(marked: set<TypeName>, scopeResolve: TypeName -> Option<ServiceRef>,
                                  disposed: bool, service: TypeName)
    ensures Resolve(marked, false, scopeResolve, disposed, service) == Failure(ServiceAccessDenied(service))
        <==> service !in marked
  {
  }

  class SdkUtilServiceProvider {
    const scope: DiScope
    /** The types carrying SdkUtilServiceAttribute. */
    const marked: set<TypeName>

    constructor(scope: DiScope, marked: set<TypeName>)
      ensures this.scope == scope && this.marked == marked
    {
      this.scope := scope;
      this.marked := marked;
    }

    method GetService(service: TypeName) returns (r: Result<Option<ServiceRef>, Error>)
      ensures r == Resolve(marked, false, scope.resolve, scope.disposed, service)
    {
      if service !in marked {
        return Failure(ServiceAccessDenied(service));
      }
      if scope.disposed {
        return Failure(ObjectDisposed);
      }
      return Success(scope.resolve(service));
    }

    method Dispose()
      modifies scope
      ensures scope.disposed
    {
      scope.Dispose();
    }
  }

  class SdkServiceProvider {
    const scope: DiScope
    const unsafeMode: bool
    /** The types carrying SdkServiceAttribute. */
    const marked: set<TypeName>

    constructor(scope: DiScope, unsafeMode: bool, marked: set<TypeName>)
      ensures this.scope == scope && this.unsafeMode == unsafeMode && this.marked == marked
    {
      this.scope := scope;
      this.unsafeMode := unsafeMode;
      this.marked := marked;
    }

    method GetService(service: TypeName) returns (r: Result<Option<ServiceRef>, Error>)
      ensures r == Resolve(marked, unsafeMode, scope.resolve, scope.disposed, service)
    {
      if !unsafeMode && service !in marked {
        return Failure(ServiceAccessDenied(service));
      }
      if scope.disposed {
        return Failure(ObjectDisposed);
      }
      return Success(scope.resolve(service));
    }

    method Dispose()
      modifies scope
      ensures scope.disposed
    {
      scope.Dispose();
    }
  }
}
