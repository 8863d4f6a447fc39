/** fakts/services/device_codes.py and the polling of fakts/views.py. */
module DeviceCodes {
  import opened Prelude
  import opened Rows
  import opened Clients
  import Rendering
  import Tokens

  function CodeRows(t: Tables, code: string): set<nat> {
    set k | k in t.codes && t.codes[k].code == code
  }

  datatype Staging = Staging(manifest: Manifest, kind: Kind, role: Role, redirectUris: seq<string>, seconds: int)

  /** `start_device_code`, with the code it draws. */
  function StartDeviceCode(t: Tables, g: Staging, code: string, download: Download,
                           now: int): (r: Result<(Tables, nat), Error>)
    ensures r.Ok? ==> r.value.0 == t.(nextId := r.value.0.nextId, codes := r.value.0.codes)
  {
    var logo :- FetchLogo(g.manifest, download);
    if CodeRows(t, code) != {} then Err(Integrity)
    else Ok((t.(nextId := t.nextId + 1,
                codes := t.codes[t.nextId := DeviceCode(code, g.manifest, g.kind, g.role, g.redirectUris,
                                                        now + g.seconds, false, None)]),
             t.nextId))
  }

  /** The look-up compares the redirect column with the text of a one-element tuple. */
  function RedirectText(w: Crypto, uris: seq<string>): string {
    "(" + w.repr(Tokens.Join(" ", uris)) + ",)"
  }

  /** Who accepts, and the values drawn for it. */
  datatype Acceptance = Acceptance(user: nat, composition: nat, declined: set<string>, newToken: string, draw: Draw)

  function ValidateDeviceCode(w: Crypto, t: Tables, k: nat, organization: nat,
                              a: Acceptance): (r: Result<(Tables, nat), Error>)
    requires k in t.codes
    ensures r.Ok? ==> r.value.0.tokens == t.tokens
  {
    var row := t.codes[k];
    var m := row.manifest;
    var (t1, node) :- GetOrCreateNode(w, t, m, organization);
    var (t2, c) :- ReuseOrCreate(w, t1, row, node, organization, a);
    Ok((t2.(codes := t2.codes[k := row.(client := Some(c))]), c))
  }

  function ReuseOrCreate(w: Crypto, t: Tables, row: DeviceCode, node: Option<nat>, organization: nat,
                         a: Acceptance): (r: Result<(Tables, nat), Error>)
    ensures r.Ok? ==> r.value.1 in r.value.0.clients && OnlyRegistry(t, r.value.0)
  {
    var m := row.manifest;
    match First(Reusable(t, m.identifier, m.version, row.kind, node, a.user, organization, a.composition,
                         RedirectText(w, row.redirectUris)))
    case Some(c) =>
      var t1 :- Rendering.AutoCompose(w, t, c, m.requirements, a.user, a.declined);
      Ok((t1, c))
    case None =>
      if row.kind != Development then Err(UnsupportedKind)
      else CreateClient(w, t, Order(m, Config(Development, row.role, a.newToken, a.user, a.user, organization),
                                    a.user, organization, Some(a.composition), a.declined, a.draw))
  }

  /** `accept_device_code`: the organization is the composition's. */
  function AcceptDeviceCode(w: Crypto, t: Tables, k: nat, a: Acceptance): (r: Result<(Tables, nat), Error>)
    ensures r.Ok? ==> r.value.0.tokens == t.tokens
  {
    if k !in t.codes || a.composition !in t.compositions then Err(NoCode)
    else ValidateDeviceCode(w, t, k, t.compositions[a.composition].organization, a)
  }

  function Deny(t: Tables, k: nat): (r: Tables)
    ensures r == t.(codes := r.codes)
  {
    if k in t.codes then t.(codes := t.codes[k := t.codes[k].(denied := true)]) else t
  }

  datatype Poll = PollPending | PollGranted(token: string) | PollExpired | PollDenied | PollError

  function DropCode(t: Tables, k: nat): Tables {
    t.(codes := t.codes - {k})
  }

  /** `_poll_device_code` on the row that the challenge view has looked up. */
  function PollRow(t: Tables, k: nat, now: int): (r: (Tables, Poll))
    requires k in t.codes
    ensures r.0 == t || r.0 == DropCode(t, k)
  {
    var row := t.codes[k];
    if now > row.expiresAt then (DropCode(t, k), PollExpired)
    else if row.denied then (DropCode(t, k), PollDenied)
    else if row.client.Some? && row.client.value in t.clients then (t, PollGranted(t.clients[row.client.value].token))
    else (t, PollPending)
  }

  /** The challenge view. */
  function Challenge(t: Tables, code: string, now: int): (r: (Tables, Poll))
    ensures r.0 == t.(codes := r.0.codes)
  {
    match Get(CodeRows(t, code))
    case Found(k) =>
      assert k in CodeRows(t, code);
      PollRow(t, k, now)
    case Missing => (t, PollError)
    case Many => (t, PollError)
  }
}
