/**
 * Whether the cluster serves the config.openshift.io/v1 API that holds the
 * Proxy object (pkg/proxy/available.go). The package-level flag is the field
 * of an Availability object; discovery is given by the outcome of
 * ServerSupportsVersion for each group version.
 */
module ProxyAvailability {
  import opened Wrappers
  import opened Errors
  import opened GoStrings

  /** The text discovery reports when a group version is not served. */
  const NotSupportedErrorMessage := "server does not support API version"

  const NilDiscoveryMessage := "discovery interface can not be <nil>"

  datatype GroupVersion = GroupVersion(group: string, version: string)

  /** The group version of the cluster Proxy API. */
  const ConfigV1 := GroupVersion("config.openshift.io", "v1")

  /** A (non-nil) discovery client: the error of ServerSupportsVersion, None when served. */
  datatype Discovery = Discovery(serverSupportsVersion: GroupVersion -> Option<Error>)

  /** A discovery error that only says the version is not served. */
  predicate IsNotSupported(e: Error)
  {
    Contains(ErrorText(e), NotSupportedErrorMessage)
  }

  class Availability {
    /** isAPIAvailable. */
    var isAPIAvailable: bool

    /** The flag starts false. */
    constructor()
      ensures !isAPIAvailable
    {
      isAPIAvailable := false;
    }

    /** IsAPIAvailable. */
    function IsAPIAvailable(): bool
      reads this
    {
      isAPIAvailable
    }

    /**
     * SetProxyAvailability: a nil discovery and an unexpected discovery error
     * are returned; "not supported" is no error; the flag is raised only when
     * the version is served and is never lowered.
     */
    method SetProxyAvailability(discovery: Option<Discovery>) returns (err: Option<Error>)
      modifies this
      ensures discovery.None? ==>
        err == Some(Failure(NilDiscoveryMessage)) && isAPIAvailable == old(isAPIAvailable)
      ensures discovery.Some? && discovery.value.serverSupportsVersion(ConfigV1).Some? ==>
        var e := discovery.value.serverSupportsVersion(ConfigV1).value;
        isAPIAvailable == old(isAPIAvailable) &&
        err == (if IsNotSupported(e) then None else Some(e))
      ensures discovery.Some? && discovery.value.serverSupportsVersion(ConfigV1).None? ==>
        isAPIAvailable && err.None?
      ensures old(isAPIAvailable) ==> isAPIAvailable
      ensures isAPIAvailable != old(isAPIAvailable) ==> isAPIAvailable && err.None?
    {
      if discovery.None? {
        return Some(Failure(NilDiscoveryMessage));
      }
      var opStatusGV := GroupVersion("config.openshift.io", "v1");
      var discoveryErr := discovery.value.serverSupportsVersion(opStatusGV);
      if discoveryErr.Some? {
        if Contains(ErrorText(discoveryErr.value), NotSupportedErrorMessage) {
          return None;
        }
        return discoveryErr;
      }
      isAPIAvailable := true;
      return None;
    }
  }
}
