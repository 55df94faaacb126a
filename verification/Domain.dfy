/** Values shared by the components of the mesh: stored records and small helpers. */
module Domain {

  datatype Option<+T> = None | Some(value: T)

  type Key = string      // WireGuard public key
  type Account = string

  /** An IPv4 address as the 32-bit number it denotes. */
  const ADDRESS_SPACE: nat := 0x1_0000_0000
  type Addr = a: nat | a < ADDRESS_SPACE
  type Bits = n: nat | n <= 32

  /** What a rule's source or destination column denotes once its text is read.
      `Any` is "" or "*"; `Unusable` is text that names no IPv4 host or prefix. */
  datatype Field =
    | Any
    | Host(addr: Addr)
    | Prefix(base: Addr, bits: Bits)
    | Group(name: string)
    | Unusable

  const DEFAULT_GROUP := "Default"
  const DEFAULT_ROUTE := "0.0.0.0/0"

  predicate IsDefault(cidr: string) {
    cidr == DEFAULT_ROUTE || cidr == "::/0"
  }

  /** What the server notes about the device behind a peer, times included. */
  datatype Device = Device(
    os: string, kernel: string, version: string, localIP: string, publicIP: string, country: string,
    lastSeen: int, createdAt: int)

  datatype Peer = Peer(
    id: string,
    account: Account,
    key: Key,
    ip: Option<Addr>,
    hostname: string,
    dnsLabel: string,
    groups: seq<string>,
    routes: seq<string>,
    exitNode: Key,
    device: Device)

  datatype Rule = Rule(
    id: string,
    account: Account,
    src: Field,
    dst: Field,
    protocol: string,
    port: int,
    action: string,
    enabled: bool,
    priority: int)

  /** `strings.ToLower` on ASCII text. */
  function Lower(s: string): (r: string)
    ensures |r| == |s|
  {
    seq(|s|, i requires 0 <= i < |s| => if 'A' <= s[i] <= 'Z' then s[i] - 'A' + 'a' else s[i])
  }

  lemma ConcatFront<T>(a: seq<T>, b: seq<T>)
    requires b != []
    ensures (a + b)[..|a + b| - 1] == a + b[..|b| - 1] && (a + b)[|a + b| - 1] == b[|b| - 1]
  {
  }

  function Pow2(n: nat): (r: nat)
    ensures r >= 1
  {
    if n == 0 then 1 else 2 * Pow2(n - 1)
  }
}
