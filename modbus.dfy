/** The Modbus transport the RD6006 driver talks through (a minimalmodbus Instrument),
    reduced to what the driver can observe: a bank of 16-bit holding registers on the
    device, a link that may lose or garble an exchange, and the requests put on the wire.
    The link's behaviour is a script of outcomes for the coming exchanges; once the
    script is used up, every request is answered. */
module Modbus {

  /** The content of one holding register. */
  type U16 = x: int | 0 <= x < 0x1_0000

  /** The failures a call into the transport can end in. */
  datatype Error =
    | NoResponse       // no reply before the transport's timeout
    | InvalidResponse  // a reply that fails the framing, checksum or address checks
    | LinkFault        // any other failure of the serial link
    | IllegalAddress   // the device answered with a Modbus exception: no such registers
    | ValueError       // the transport refuses to encode the request
    | WrongLength      // raised by the driver itself: a date or time that is not 3 values

  datatype Result<T> = Ok(value: T) | Err(error: Error)

  /** The errors the serial link itself can end a call with; the others come from the
      device's answer, from the transport refusing a request, or from the driver. */
  type LinkError = e: Error | e.NoResponse? || e.InvalidResponse? || e.LinkFault? witness NoResponse

  /** What the link does with one request: the device answers it, or the call fails. */
  datatype Exchange = Answered | Failed(error: LinkError)

  /** The four transport calls the driver uses: read_register, read_registers,
      write_register and write_registers. */
  datatype Request =
    | ReadOne(register: int)
    | ReadMany(start: int, count: int)
    | WriteOne(register: int, value: int)
    | WriteMany(first: int, values: seq<int>)
  {
    /** The first register addressed. */
    function Start(): int {
      match this
      case ReadOne(r) => r
      case ReadMany(s, _) => s
      case WriteOne(r, _) => r
      case WriteMany(s, _) => s
    }

    /** The number of registers addressed. */
    function Count(): int {
      match this
      case ReadOne(_) => 1
      case ReadMany(_, n) => n
      case WriteOne(_, _) => 1
      case WriteMany(_, vs) => |vs|
    }

    predicate IsWrite() {
      WriteOne? || WriteMany?
    }

    /** The values a write stores, in register order. */
    function Payload(): seq<int>
      requires IsWrite()
    {
      if WriteOne? then [value] else values
    }
  }

  /** The transport puts a request on the wire only when its start address fits a
      Modbus frame, it addresses at least one register, and every value it writes
      fits 16 bits; otherwise the call raises ValueError before anything is sent. */
  predicate Encodable(req: Request) {
    0 <= req.Start() < 0x1_0000 && 1 <= req.Count() &&
    (req.IsWrite() ==> forall v <- req.Payload() :: 0 <= v < 0x1_0000)
  }

  /** Every register the request addresses exists in a bank of n registers. */
  predicate InBank(req: Request, n: nat) {
    0 <= req.Start() && 0 <= req.Count() && req.Start() + req.Count() <= n
  }

  /** The device's answer to a request it received: the registers read (nothing for
      a write), or an exception when some addressed register does not exist. */
  function Serve(bank: seq<U16>, req: Request): Result<seq<U16>> {
    if !InBank(req, |bank|) then Err(IllegalAddress)
    else if req.IsWrite() then Ok([])
    else Ok(bank[req.Start()..req.Start() + req.Count()])
  }

  /** The result of one transport call whose exchange goes as x. */
  function Outcome(x: Exchange, bank: seq<U16>, req: Request): (r: Result<seq<U16>>)
    ensures r.Ok? ==> Encodable(req) && InBank(req, |bank|)
    ensures r.Ok? && !req.IsWrite() ==> r.value == bank[req.Start()..req.Start() + req.Count()]
    ensures r.Err? && r.error in {NoResponse, InvalidResponse} ==> Encodable(req) && x == Failed(r.error)
  {
    if !Encodable(req) then Err(ValueError)
    else match x
      case Failed(e) => Err(e)
      case Answered => Serve(bank, req)
  }

  /** The bank after the device has carried out a request that it answered. */
  function Apply(bank: seq<U16>, req: Request): seq<U16>
    requires Encodable(req) && InBank(req, |bank|)
  {
    if req.IsWrite() then
      var s, vs := req.Start(), req.Payload();
      var stored := seq<U16>(|vs|, i requires 0 <= i < |vs| => assert vs[i] in vs; vs[i] as U16);
      bank[..s] + stored + bank[s + |vs|..]
    else bank
  }

  /** A write stores its payload over exactly the registers it addresses; every other
      register, and every register under a read, keeps its value. */
  lemma ApplyFrame(bank: seq<U16>, req: Request)
    requires Encodable(req) && InBank(req, |bank|)
    ensures |Apply(bank, req)| == |bank|
    ensures forall i :: 0 <= i < |bank| && !(req.IsWrite() && req.Start() <= i < req.Start() + req.Count()) ==>
      Apply(bank, req)[i] == bank[i]
    ensures req.IsWrite() ==> Apply(bank, req)[req.Start()..req.Start() + req.Count()] == req.Payload()
  {
  }

  /** The next exchange the link performs. */
  function Next(script: seq<Exchange>): Exchange {
    if script == [] then Answered else script[0]
  }

  /** The script after one exchange. */
  function Rest(script: seq<Exchange>): seq<Exchange> {
    if script == [] then [] else script[1..]
  }

  class Instrument {
    /** The device's holding registers. */
    const bank: array<U16>
    /** How the link treats the coming exchanges, in order. */
    var script: seq<Exchange>
    /** Every request put on the wire so far, in order. */
    var sent: seq<Request>

    constructor (bank: array<U16>, script: seq<Exchange>)
      ensures this.bank == bank && this.script == script && sent == []
    {
      this.bank := bank;
      this.script := script;
      sent := [];
    }

    /** One transport call, without any retry. */
    method Call(req: Request) returns (r: Result<seq<U16>>)
      modifies this, bank
      ensures r == Outcome(old(Next(script)), old(bank[..]), req)
      ensures bank[..] == if r.Ok? then Apply(old(bank[..]), req) else old(bank[..])
      ensures script == if Encodable(req) then old(Rest(script)) else old(script)
      ensures sent == old(sent) + if Encodable(req) then [req] else []
    {
      if !Encodable(req) {
        return Err(ValueError);
      }
      sent := sent + [req];
      var x := Next(script);
      script := Rest(script);
      match x
      case Failed(e) =>
        r := Err(e);
      case Answered =>
        var s, n := req.Start(), req.Count();
        if !InBank(req, bank.Length) {
          r := Err(IllegalAddress);
        } else if req.IsWrite() {
          Store(req);
          r := Ok([]);
        } else {
          r := Ok(bank[s..s + n]);
        }
    }

    /** The device carrying out an answered write. */
    method Store(req: Request)
      requires Encodable(req) && InBank(req, bank.Length) && req.IsWrite()
      modifies bank
      ensures bank[..] == Apply(old(bank[..]), req)
    {
      var s, vs := req.Start(), req.Payload();
      forall i | s <= i < s + |vs| {
        bank[i] := vs[i - s];
      }
    }
  }
}
