/**
  The rpcd access-control list the plugin installs for its router user
  (`AclData` in src/constants.js): which ubus object methods that user may call.
  rpcd grants a ubus call when either the read or the write section lists the
  method, or lists the wildcard `*`, for the object.
 */
module Acl {

  /** The `read.ubus` section: object name to permitted methods. */
  const ReadUbus: map<string, seq<string>> := map[
    "network.wireless" := ["*"],
    "network.interface" := ["*"],
    "system" := ["*"]
  ]

  /** The `write.ubus` section: object name to permitted methods. */
  const WriteUbus: map<string, seq<string>> := map[
    "uci" := ["get", "set", "commit"],
    "network.wireless" := ["down", "up", "reload"],
    "network" := ["reload"],
    "system" := ["reboot"],
    "service" := ["restart"],
    "file" := ["write"]
  ]

  /** Whether one section of the list lets `service.method` through. */
  predicate Grants(section: map<string, seq<string>>, service: string, op: string) {
    service in section && ("*" in section[service] || op in section[service])
  }

  /**
    `Permitted(service, op)`: the plugin's router user may call this ubus
    method. Spelled out, that is every method of the three read-wildcard
    objects, plus `uci` get/set/commit, `network` reload, `service` restart
    and `file` write.
   */
  function Permitted(service: string, op: string): (b: bool)
    ensures b <==>
      || service in {"network.wireless", "network.interface", "system"}
      || (service == "uci" && op in {"get", "set", "commit"})
      || (service == "network" && op == "reload")
      || (service == "service" && op == "restart")
      || (service == "file" && op == "write")
  {
    Grants(ReadUbus, service, op) || Grants(WriteUbus, service, op)
  }

  /** The write section allows exactly `get`, `set` and `commit` on `uci`. */
  lemma UciWriteWhitelist(op: string)
    ensures Grants(WriteUbus, "uci", op) <==> op in {"get", "set", "commit"}
  {
  }

  /** The remaining write entries: `network.wireless` down/up/reload, `network` reload, `system` reboot. */
  lemma ControlWriteWhitelist(op: string)
    ensures Grants(WriteUbus, "network.wireless", op) <==> op in {"down", "up", "reload"}
    ensures Grants(WriteUbus, "network", op) <==> op == "reload"
    ensures Grants(WriteUbus, "system", op) <==> op == "reboot"
  {
  }

  /** Reads are wildcard on `network.wireless`, `network.interface` and `system`, and on nothing else. */
  lemma ReadWildcards(service: string, op: string)
    ensures Grants(ReadUbus, service, op) <==> service in {"network.wireless", "network.interface", "system"}
  {
  }

  /** `uci` configuration reads (`uci get`) are allowed only through the write section, and `uci` has no wildcard. */
  lemma UciHasNoWildcard(op: string)
    ensures Permitted("uci", op) <==> op in {"get", "set", "commit"}
  {
  }
}
