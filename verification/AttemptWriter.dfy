/** The response writer of one provider attempt: it holds back status, headers and body until the attempt is committed
    to the client, so that a failed attempt can be forgotten. */
module AttemptWriter {
  import opened Sse

  /** A piece of response body, tagged with where it came from. */
  datatype Piece = Provider(attempt: nat, bytes: Bytes) | Gateway(status: nat, size: nat)

  function PieceSize(p: Piece): nat { if p.Provider? then |p.bytes| else p.size }

  function BodySize(body: seq<Piece>): nat {
    if body == [] then 0 else BodySize(body[..|body| - 1]) + PieceSize(body[|body| - 1])
  }

  const REQUEST_ID := "X-Pocket-Ai-Request-Id"

  /** The connection to the client; `status` 0 means that nothing was sent. */
  class Client {
    var status: nat
    var header: map<string, string>
    var body: seq<Piece>

    constructor ()
      ensures status == 0 && header == map[] && body == []
    {
      status, header, body := 0, map[], [];
    }

    predicate Untouched()
      reads this
    {
      status == 0 && body == []
    }

    method WriteHeader(code: nat)
      modifies this`status
      ensures status == if old(status) == 0 then code else old(status)
    {
      if status == 0 { status := code; }
    }

    method Write(pieces: seq<Piece>)
      modifies this`status, this`body
      ensures body == old(body) + pieces && status == if old(status) == 0 then 200 else old(status)
    {
      if status == 0 { status := 200; }
      body := body + pieces;
    }
  }

  /** `attemptWriter`. `bufferLimit` 0 means unlimited. */
  class Writer {
    const client: Client
    const streaming: bool
    const bufferLimit: nat
    var header: map<string, string>
    var status: nat
    var body: seq<Piece>
    var committed: bool

    /** Nothing is held back after the commit, and nothing reached the client before it. */
    ghost predicate Valid()
      reads this, client
    {
      if committed then body == [] && client.status != 0 else client.Untouched()
    }

    constructor (client: Client, streaming: bool, bufferLimit: nat)
      requires client.Untouched()
      ensures Valid() && !committed && status == 0 && body == [] && header == map[]
      ensures this.client == client && this.streaming == streaming && this.bufferLimit == bufferLimit
    {
      this.client, this.streaming, this.bufferLimit := client, streaming, bufferLimit;
      header, status, body, committed := map[], 0, [], false;
    }

    method SetHeader(name: string, value: string)
      requires Valid()
      modifies this`header
      ensures Valid() && header == old(header)[name := value]
    {
      header := header[name := value];
    }

    method WriteHeader(code: nat)
      requires Valid()
      modifies this`status
      ensures Valid() && status == if old(status) == 0 then code else old(status)
    {
      if status != 0 { return; }
      status := code;
    }

    /** Written bytes are buffered before the commit and passed on after it. */
    method Write(piece: Piece) returns (ok: bool)
      requires Valid()
      modifies this, client`status, client`body
      ensures Valid() && committed == old(committed) && header == old(header)
      ensures status == if old(status) == 0 then 200 else old(status)
      ensures if old(committed) then ok && body == [] && client.body == old(client.body) + [piece] && client.status == old(client.status)
              else client.body == old(client.body) && client.status == old(client.status)
                   && (ok <==> bufferLimit == 0 || BodySize(old(body)) + PieceSize(piece) <= bufferLimit)
                   && body == if ok then old(body) + [piece] else old(body)
    {
      if status == 0 { WriteHeader(200); }
      if committed {
        client.Write([piece]);
        return true;
      }
      if bufferLimit > 0 && BodySize(body) + PieceSize(piece) > bufferLimit { return false; }
      body := body + [piece];
      return true;
    }

    /** Sends everything held back. The gateway's own request id header survives whatever the provider sent. */
    method Commit()
      requires Valid()
      modifies this, client
      ensures Valid() && committed && body == [] && status == old(status)
      ensures old(committed) ==> client.body == old(client.body) && client.status == old(client.status) && client.header == old(client.header)
      ensures !old(committed) ==>
                && client.body == old(body) && client.status == (if old(status) == 0 then 200 else old(status))
                && client.header.Keys == old(client.header).Keys + old(header).Keys
                && (REQUEST_ID in old(client.header) && old(client.header)[REQUEST_ID] != "" ==>
                      client.header[REQUEST_ID] == old(client.header)[REQUEST_ID])
                && (forall name :: name in old(header) && name != REQUEST_ID ==> client.header[name] == old(header)[name])
    {
      if committed { return; }
      var requestId := if REQUEST_ID in client.header then client.header[REQUEST_ID] else "";
      client.header := client.header + header;
      if requestId != "" { client.header := client.header[REQUEST_ID := requestId]; }
      client.WriteHeader(if status == 0 then 200 else status);
      committed := true;
      if body != [] {
        client.Write(body);
        body := [];
      }
    }

    /** Only a successful streaming response is committed by a flush. */
    method Flush()
      requires Valid()
      modifies this, client
      ensures Valid()
      ensures status == if old(status) == 0 then 200 else old(status)
      ensures old(committed) ==> committed && client.body == old(client.body) && client.status == old(client.status) && body == []
      ensures !old(committed) ==>
                && (committed <==> streaming && 200 <= status < 300)
                && (committed ==> client.body == old(body) && client.status == status && body == [])
                && (!committed ==> body == old(body))
    {
      if status == 0 { WriteHeader(200); }
      if streaming && 200 <= status < 300 { Commit(); }
    }

    /** Forgets what is held back of the attempt; what was committed stays with the client. */
    method Reset()
      requires Valid()
      modifies this`header, this`status, this`body
      ensures Valid() && committed == old(committed) && header == map[] && status == 0 && body == []
    {
      header, status, body := map[], 0, [];
    }
  }
}
