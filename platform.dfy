/**
 * What the application client and the device client share: the broker hosts
 * of the platform, the credentials handed to the MQTT connection, opaque
 * callback handles, and the reconnect back-off both clients apply when the
 * transport goes offline (each with its own threshold for fast retries).
 */
module Platform {

  const QuickstartOrg: string := "quickstart"

  /** Broker used in quickstart mode: plain TCP, port 1883. */
  const QuickstartHost: string := "tcp://quickstart.messaging.internetofthings.ibmcloud.com:1883"

  /** Broker of a registered organisation: TLS, port 8883. */
  function RegisteredHost(org: string): string {
    "ssl://" + org + ".messaging.internetofthings.ibmcloud.com:8883"
  }

  /** The `username` and `password` options of the MQTT connection. */
  datatype Credentials = Credentials(username: string, password: string)

  /** A callback registered by the application; only its identity matters. */
  datatype Handler = Handler(id: nat)

  /** The QoS levels the clients pass to the transport. */
  const AtMostOnce: nat := 0
  const AtLeastOnce: nat := 1
  const ExactlyOnce: nat := 2

  /**
   * The `reconnectPeriod` (milliseconds) set by an offline handler after its
   * retry counter was incremented to `retryCount`: 3 seconds while the counter
   * is below `fastRetries`, 10 seconds while it is below 10, one minute after.
   */
  function ReconnectPeriod(retryCount: nat, fastRetries: nat): (period: nat)
    ensures period == 3000 <==> retryCount < fastRetries
    ensures period == 10000 <==> fastRetries <= retryCount < 10
    ensures period == 60000 <==> fastRetries <= retryCount && 10 <= retryCount
  {
    if retryCount < fastRetries then 3000
    else if retryCount < 10 then 10000
    else 60000
  }

  /** A longer outage never shortens the back-off. */
  lemma ReconnectPeriodMonotonic(r1: nat, r2: nat, fastRetries: nat)
    requires r1 <= r2
    ensures ReconnectPeriod(r1, fastRetries) <= ReconnectPeriod(r2, fastRetries)
  {
  }
}
