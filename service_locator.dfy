/**
 * DesignPatterns/ServiceLocator: a naming context that creates services by
 * name (ignoring case), caches in front of it, two locators that consult
 * the cache first and fill it on a miss, and notification decorators that
 * prefix the message before passing it on.
 *
 * The static caches of the two locators are fields of one locator object
 * each. Whether an EmailService or SmsService is also a NotificationService
 * depends on a type hierarchy that is not part of this model, so the
 * notification locator takes the set of service kinds that are.
 */
module ServiceLocation {
  import opened JavaLang

  datatype ServiceKind = EmailService | SmsService

  /** getName of each service. */
  function ServiceName(kind: ServiceKind): string
  {
    match kind
    case EmailService => "EmailService"
    case SmsService => "SmsService"
  }

  class Service {
    const kind: ServiceKind

    constructor (kind: ServiceKind)
      ensures this.kind == kind
    {
      this.kind := kind;
    }
  }

  // ---------------------------------------------------------------------------
  // InitialContext.java

  /** The kind of service lookup creates for a name: either service name in any letter case, else none. */
  function LookupKind(name: string): Option<ServiceKind>
  {
    if EqualsIgnoreCase(name, "EmailService") then Some(EmailService)
    else if EqualsIgnoreCase(name, "SmsService") then Some(SmsService)
    else None
  }

  /** EqualsIgnoreCase is symmetric and transitive. */
  lemma EqualsIgnoreCaseEquivalence(a: string, b: string, c: string)
    ensures EqualsIgnoreCase(a, b) ==> EqualsIgnoreCase(b, a)
    ensures EqualsIgnoreCase(a, b) && EqualsIgnoreCase(b, c) ==> EqualsIgnoreCase(a, c)
  {
  }

  /**
   * Lookup only sees the name up to letter case: names equal ignoring case
   * look up the same kind, and a known name is one of the two service names
   * in some letter case.
   */
  lemma LookupIgnoresCase(a: string, b: string)
    requires EqualsIgnoreCase(a, b)
    ensures LookupKind(a) == LookupKind(b)
    ensures LookupKind(a) == Some(EmailService) ==> EqualsIgnoreCase(a, ServiceName(EmailService))
    ensures LookupKind(a) == Some(SmsService) ==> EqualsIgnoreCase(a, ServiceName(SmsService))
  {
    EqualsIgnoreCaseEquivalence(b, a, "EmailService");
    EqualsIgnoreCaseEquivalence(a, b, "EmailService");
    EqualsIgnoreCaseEquivalence(b, a, "SmsService");
    EqualsIgnoreCaseEquivalence(a, b, "SmsService");
  }

  class InitialContext {
    constructor ()
    {
    }

    /** lookup: a new service of the kind the name selects, or null. */
    method Lookup(name: string) returns (s: Service?)
      ensures LookupKind(name).None? <==> s == null
      ensures s != null ==> fresh(s) && s.kind == LookupKind(name).value
    {
      if EqualsIgnoreCase(name, "EmailService") {
        s := new Service(EmailService);
      } else if EqualsIgnoreCase(name, "SmsService") {
        s := new Service(SmsService);
      } else {
        s := null;
      }
    }
  }

  // ---------------------------------------------------------------------------
  // ServiceCache.java

  class ServiceCache {
    var serviceMap: map<string, Service?>

    constructor ()
      ensures serviceMap == map[]
    {
      serviceMap := map[];
    }

    /** getService: the service stored under the exact name, or null. */
    method GetService(serviceName: string) returns (s: Service?)
      ensures serviceName in serviceMap ==> s == serviceMap[serviceName]
      ensures serviceName !in serviceMap ==> s == null
    {
      if serviceName in serviceMap {
        s := serviceMap[serviceName];
      } else {
        s := null;
      }
    }

    /** addService: store under the name, replacing any earlier entry for it only. */
    method AddService(serviceName: string, service: Service?)
      modifies this
      ensures serviceMap == old(serviceMap)[serviceName := service]
    {
      serviceMap := serviceMap[serviceName := service];
    }

    method ContainsService(serviceName: string) returns (b: bool)
      ensures b <==> serviceName in serviceMap
    {
      b := serviceName in serviceMap;
    }
  }

  // ---------------------------------------------------------------------------
  // NotificationServiceLocator.java

  class NotificationServiceLocator {
    const serviceCache: ServiceCache
    const context: InitialContext
    /** The service kinds that are NotificationServices. */
    const notificationKinds: set<ServiceKind>

    /** The locator only ever caches services, never null. */
    ghost predicate Valid()
      reads this, serviceCache
    {
      forall n :: n in serviceCache.serviceMap ==> serviceCache.serviceMap[n] != null
    }

    constructor (notificationKinds: set<ServiceKind>)
      ensures this.notificationKinds == notificationKinds && fresh(serviceCache)
      ensures serviceCache.serviceMap == map[] && Valid()
    {
      this.notificationKinds := notificationKinds;
      serviceCache := new ServiceCache();
      context := new InitialContext();
    }

    /**
     * getService: a cached service is returned as it is; otherwise the name
     * is looked up and the new service is cached, under the exact name asked
     * for, when it is a NotificationService; otherwise the result is null and
     * nothing is cached.
     */
    method GetService(serviceName: string) returns (service: Service?)
      requires Valid()
      modifies serviceCache
      ensures Valid()
      ensures serviceName in old(serviceCache.serviceMap) ==>
        service == old(serviceCache.serviceMap)[serviceName] && serviceCache.serviceMap == old(serviceCache.serviceMap)
      ensures serviceName !in old(serviceCache.serviceMap) && CachedKind(serviceName).Some? ==>
        fresh(service) && service.kind == CachedKind(serviceName).value
        && serviceCache.serviceMap == old(serviceCache.serviceMap)[serviceName := service]
      ensures serviceName !in old(serviceCache.serviceMap) && CachedKind(serviceName).None? ==>
        service == null && serviceCache.serviceMap == old(serviceCache.serviceMap)
    {
      service := serviceCache.GetService(serviceName);
      if service == null {
        var serviceObject := context.Lookup(serviceName);
        if serviceObject != null && serviceObject.kind in notificationKinds {
          service := serviceObject;
          serviceCache.AddService(serviceName, service);
        }
      }
    }

    /** The kind a miss creates and caches: a looked-up kind that is a NotificationService. */
    function CachedKind(serviceName: string): Option<ServiceKind>
    {
      match LookupKind(serviceName)
      case Some(k) => if k in notificationKinds then Some(k) else None
      case None => None
    }
  }

  /**
   * Once cached, a name keeps giving the same object; and since the cache
   * is keyed by the exact name, "emailservice" gets a second, distinct
   * EmailService after "EmailService" was cached.
   */
  method CacheKeyedByExactName() returns (first: Service?, again: Service?, lower: Service?)
    ensures first != null && first == again && lower != null && lower != first
    ensures first.kind == EmailService && lower.kind == EmailService
  {
    var locator := new NotificationServiceLocator({EmailService});
    assert LookupKind("EmailService") == Some(EmailService);
    assert LookupKind("emailservice") == Some(EmailService);
    first := locator.GetService("EmailService");
    again := locator.GetService("EmailService");
    assert "emailservice" != "EmailService";
    lower := locator.GetService("emailservice");
  }

  // ---------------------------------------------------------------------------
  // ServiceLocator.java

  /**
   * The Cache class is not part of this model: it is a list of services and
   * getService returns the first one the given name matches, under a
   * matching relation fixed at construction; addService appends.
   */
  class Cache {
    const matches: (string, ServiceKind) -> bool
    var services: seq<Service>

    constructor (matches: (string, ServiceKind) -> bool)
      ensures this.matches == matches && services == []
    {
      this.matches := matches;
      services := [];
    }

    method GetService(name: string) returns (s: Service?)
      ensures s == null <==> forall i :: 0 <= i < |services| ==> !matches(name, services[i].kind)
      ensures s != null ==> exists i :: 0 <= i < |services| && services[i] == s && matches(name, s.kind)
    {
      var i := 0;
      while i < |services|
        invariant 0 <= i <= |services|
        invariant forall j :: 0 <= j < i ==> !matches(name, services[j].kind)
      {
        if matches(name, services[i].kind) {
          return services[i];
        }
        i := i + 1;
      }
      return null;
    }

    method AddService(s: Service)
      modifies this
      ensures services == old(services) + [s]
    {
      services := services + [s];
    }
  }

  /** Some cached service matches the name. */
  predicate AnyMatches(matches: (string, ServiceKind) -> bool, services: seq<Service>, name: string)
  {
    exists i :: 0 <= i < |services| && matches(name, services[i].kind)
  }

  class ServiceLocator {
    const cache: Cache

    constructor (matches: (string, ServiceKind) -> bool)
      ensures fresh(cache) && cache.matches == matches && cache.services == []
    {
      cache := new Cache(matches);
    }

    /**
     * getService: a cache hit is returned without a lookup; on a miss a
     * fresh context looks the name up, and a non-null result is added to the
     * cache and returned; null is returned and not cached.
     */
    method GetService(name: string) returns (service: Service?)
      modifies cache
      ensures AnyMatches(cache.matches, old(cache.services), name) ==>
        service != null && service in old(cache.services) && cache.services == old(cache.services)
      ensures !AnyMatches(cache.matches, old(cache.services), name) && LookupKind(name).None? ==>
        service == null && cache.services == old(cache.services)
      ensures !AnyMatches(cache.matches, old(cache.services), name) && LookupKind(name).Some? ==>
        service != null && fresh(service) && service.kind == LookupKind(name).value
        && cache.services == old(cache.services) + [service]
    {
      service := cache.GetService(name);
      if service != null {
        return service;
      }
      var context := new InitialContext();
      service := context.Lookup(name);
      if service != null {
        cache.AddService(service);
      }
    }
  }

  // ---------------------------------------------------------------------------
  // NotificationDecorator.java, EncryptionDecorator.java, DigitalSignatureDecorator.java

  /** A notification service: a plain one (whose class is not part of this model) or a decorator around another. */
  datatype Notifier =
    | Plain(name: string)
    | Encryption(inner: Notifier)
    | DigitalSignature(inner: Notifier)

  /** getName: a decorator reports the name of the service it wraps. */
  function GetName(n: Notifier): string
  {
    match n
    case Plain(name) => name
    case Encryption(inner) => GetName(inner)
    case DigitalSignature(inner) => GetName(inner)
  }

  /** The innermost, plain service. */
  function Innermost(n: Notifier): (p: Notifier)
    ensures p.Plain?
  {
    match n
    case Plain(_) => n
    case Encryption(inner) => Innermost(inner)
    case DigitalSignature(inner) => Innermost(inner)
  }

  /** sendNotification: the one message that reaches the plain service, after each decorator prefixes it once. */
  function Delivered(n: Notifier, message: string): string
  {
    match n
    case Plain(_) => message
    case Encryption(inner) => Delivered(inner, "Encrypted: " + message)
    case DigitalSignature(inner) => Delivered(inner, "Digitally Signed: " + message)
  }

  /** The prefixes the decorators add, innermost decorator first. */
  function Prefixes(n: Notifier): string
  {
    match n
    case Plain(_) => ""
    case Encryption(inner) => Prefixes(inner) + "Encrypted: "
    case DigitalSignature(inner) => Prefixes(inner) + "Digitally Signed: "
  }

  /**
   * A decorated service delivers the message with every decorator's prefix
   * in front, the outermost decorator's prefix nearest the message.
   */
  lemma {:induction false} DeliveredIsPrefixed(n: Notifier, message: string)
    ensures Delivered(n, message) == Prefixes(n) + message
  {
    match n
    case Plain(_) =>
    case Encryption(inner) =>
      DeliveredIsPrefixed(inner, "Encrypted: " + message);
      assert Prefixes(inner) + ("Encrypted: " + message) == Prefixes(inner) + "Encrypted: " + message;
    case DigitalSignature(inner) =>
      DeliveredIsPrefixed(inner, "Digitally Signed: " + message);
      assert Prefixes(inner) + ("Digitally Signed: " + message) == Prefixes(inner) + "Digitally Signed: " + message;
  }

  /** Decorators never change the name: it is the plain service's. */
  lemma {:induction false} NameIsInnermost(n: Notifier)
    ensures GetName(n) == Innermost(n).name
  {
    match n
    case Plain(_) =>
    case Encryption(inner) => NameIsInnermost(inner);
    case DigitalSignature(inner) => NameIsInnermost(inner);
  }

  /**
   * Encryption is not idempotent, and the outermost prefix ends up
   * innermost: DigitalSignature(Encryption(s)) delivers
   * "Encrypted: Digitally Signed: m".
   */
  lemma DecoratorOrder(s: Notifier, m: string)
    requires s.Plain?
    ensures Delivered(Encryption(Encryption(s)), m) == "Encrypted: Encrypted: " + m
    ensures Delivered(DigitalSignature(Encryption(s)), m) == "Encrypted: Digitally Signed: " + m
  {
    DeliveredIsPrefixed(Encryption(Encryption(s)), m);
    assert Prefixes(s) == "";
    assert Prefixes(Encryption(s)) == "" + "Encrypted: ";
    assert Prefixes(Encryption(Encryption(s))) == "" + "Encrypted: " + "Encrypted: ";
    assert "" + "Encrypted: " + "Encrypted: " + m == "Encrypted: Encrypted: " + m;
    DeliveredIsPrefixed(DigitalSignature(Encryption(s)), m);
    assert Prefixes(DigitalSignature(Encryption(s))) == "" + "Encrypted: " + "Digitally Signed: ";
    assert "" + "Encrypted: " + "Digitally Signed: " + m == "Encrypted: Digitally Signed: " + m;
  }
}
