/** How a backup to S3 or COS picks the account it writes with, and how it records a change. */
module CloudTokens {
  import opened Options

  datatype Token = Token(accessKey: string, endpoint: string)

  /** The location entry of a backup. */
  datatype Location = Location(name: string, endpoint: string)

  /** A token that could not be fetched stays in the list as nil, and reading it crashes. */
  type Tokens = seq<Option<Token>>

  datatype Choice =
    | NoTokens
    | NotFound
    | Panics
    | Chosen(token: Token, changed: bool)

  datatype Scan = Nil | Miss | Hit(token: Token)

  /** The first loop: the token whose access key is the recorded name. */
  function ByName(tokens: Tokens, name: string): Scan {
    if tokens == [] then Miss
    else
      match tokens[0]
      case None => Nil
      case Some(t) => if t.accessKey == name then Hit(t) else ByName(tokens[1..], name)
  }

  /** The second loop: the token for the recorded endpoint. */
  function ByEndpoint(tokens: Tokens, endpoint: string): Scan {
    if tokens == [] then Miss
    else
      match tokens[0]
      case None => Nil
      case Some(t) => if t.endpoint == endpoint then Hit(t) else ByEndpoint(tokens[1..], endpoint)
  }

  function Choose(tokens: Tokens, l: Location): Choice {
    if tokens == [] then NoTokens
    else
      match ByName(tokens, l.name)
      case Nil => Panics
      case Hit(t) => Chosen(t, false)
      case Miss =>
        match ByEndpoint(tokens, l.endpoint)
        case Nil => Panics
        case Hit(t) => Chosen(t, true)
        case Miss => NotFound
  }

  /** What buildLocation and UpdateTotalSize leave in the backup after a successful run. */
  function Recorded(l: Location, c: Choice): Location {
    match c
    case Chosen(t, true) => Location(t.accessKey, t.endpoint)
    case _ => l
  }

  /** The fields of the running backup that hold the choice. */
  class IntegrationChoice {
    var changed: bool
    var name: string
    var endpoint: string

    constructor ()
    {
      changed, name, endpoint := false, "", "";
    }

    method GetIntegrationCloud(tokens: Tokens, l: Location) returns (c: Choice)
      modifies this
      ensures c == Choose(tokens, l)
      ensures c.Chosen? ==> changed == c.changed
      ensures c.Chosen? && c.changed ==> Location(name, endpoint) == Recorded(l, c)
    {
      if tokens == [] { return NoTokens; }
      for i := 0 to |tokens|
        invariant ByName(tokens, l.name) == ByName(tokens[i..], l.name)
      {
        if tokens[i].None? { return Panics; }
        var t := tokens[i].value;
        if t.accessKey == l.name {
          changed := false;
          return Chosen(t, false);
        }
        assert tokens[i..][1..] == tokens[i + 1..];
      }
      for i := 0 to |tokens|
        invariant ByEndpoint(tokens, l.endpoint) == ByEndpoint(tokens[i..], l.endpoint)
      {
        if tokens[i].None? { return Panics; }
        var t := tokens[i].value;
        if t.endpoint == l.endpoint {
          changed, name, endpoint := true, t.accessKey, t.endpoint;
          return Chosen(t, true);
        }
        assert tokens[i..][1..] == tokens[i + 1..];
      }
      return NotFound;
    }
  }

  lemma {:induction false} ByEndpointHit(tokens: Tokens, endpoint: string)
    requires ByEndpoint(tokens, endpoint).Hit?
    ensures Some(ByEndpoint(tokens, endpoint).token) in tokens
    ensures ByEndpoint(tokens, endpoint).token.endpoint == endpoint
  {
    if tokens[0].value.endpoint != endpoint { ByEndpointHit(tokens[1..], endpoint); }
  }

  /** The loops stop at a nil token only when they get that far. */
  lemma {:induction false} ByNameFinds(tokens: Tokens, t: Token)
    requires None !in tokens && Some(t) in tokens
    ensures ByName(tokens, t.accessKey).Hit? && ByName(tokens, t.accessKey).token.accessKey == t.accessKey
  {
    if tokens[0].value.accessKey != t.accessKey {
      assert tokens == [tokens[0]] + tokens[1..];
      ByNameFinds(tokens[1..], t);
    }
  }

  lemma {:induction false} MissMeansNoNil(tokens: Tokens, name: string)
    requires ByName(tokens, name).Miss?
    ensures None !in tokens
  {
    if tokens != [] {
      MissMeansNoNil(tokens[1..], name);
      assert tokens == [tokens[0]] + tokens[1..];
    }
  }

  /** No different token with the same access key stands before t. */
  predicate Unshadowed(tokens: Tokens, t: Token) {
    forall j :: 0 <= j < |tokens| && tokens[j].Some? && tokens[j].value.accessKey == t.accessKey ==>
      tokens[j].value == t || Some(t) in tokens[..j]
  }

  lemma {:induction false} ByNameIs(tokens: Tokens, t: Token)
    requires None !in tokens && Some(t) in tokens
    ensures ByName(tokens, t.accessKey) == Hit(t) <==> Unshadowed(tokens, t)
  {
    var rest := tokens[1..];
    assert tokens == [tokens[0]] + rest;
    if tokens[0] == Some(t) {
      assert forall j :: 0 < j < |tokens| ==> tokens[..j][0] == Some(t);
    } else {
      ByNameIs(rest, t);
      assert forall j :: 0 < j < |tokens| ==> tokens[..j] == [tokens[0]] + rest[..j - 1];
      assert forall j :: 0 <= j < |rest| ==> rest[j] == tokens[j + 1];
    }
  }

  /** Position i is the first that the loop stops at: all before it hold a token it passes over. */
  predicate FirstAt(tokens: Tokens, i: nat, passed: Token -> bool) {
    i < |tokens| && forall j :: 0 <= j < i ==> tokens[j].Some? && passed(tokens[j].value)
  }

  function OtherName(name: string): Token -> bool {
    (t: Token) => t.accessKey != name
  }

  function OtherEndpoint(endpoint: string): Token -> bool {
    (t: Token) => t.endpoint != endpoint
  }

  lemma {:induction false} ByNameScan(tokens: Tokens, name: string)
    ensures
      var passed := OtherName(name);
      match ByName(tokens, name)
      case Nil => exists i: nat :: FirstAt(tokens, i, passed) && tokens[i].None?
      case Hit(t) => t.accessKey == name && exists i: nat :: FirstAt(tokens, i, passed) && tokens[i] == Some(t)
      case Miss => forall i :: 0 <= i < |tokens| ==> tokens[i].Some? && passed(tokens[i].value)
  {
    var passed := OtherName(name);
    if tokens != [] && tokens[0].Some? && passed(tokens[0].value) {
      ByNameScan(tokens[1..], name);
      Shift(tokens, passed);
    } else if tokens != [] {
      assert FirstAt(tokens, 0, passed);
    }
  }

  lemma Shift(tokens: Tokens, passed: Token -> bool)
    requires tokens != [] && tokens[0].Some? && passed(tokens[0].value)
    ensures forall i: nat :: FirstAt(tokens[1..], i, passed) ==> FirstAt(tokens, i + 1, passed) && tokens[i + 1] == tokens[1..][i]
  {
  }

  lemma {:induction false} ByEndpointScan(tokens: Tokens, endpoint: string)
    ensures
      var passed := OtherEndpoint(endpoint);
      match ByEndpoint(tokens, endpoint)
      case Nil => exists i: nat :: FirstAt(tokens, i, passed) && tokens[i].None?
      case Hit(t) => t.endpoint == endpoint && exists i: nat :: FirstAt(tokens, i, passed) && tokens[i] == Some(t)
      case Miss => forall i :: 0 <= i < |tokens| ==> tokens[i].Some? && passed(tokens[i].value)
  {
    var passed := OtherEndpoint(endpoint);
    if tokens != [] && tokens[0].Some? && passed(tokens[0].value) {
      ByEndpointScan(tokens[1..], endpoint);
      Shift(tokens, passed);
    } else if tokens != [] {
      assert FirstAt(tokens, 0, passed);
    }
  }

  /** The five outcomes by the list alone. A token with the recorded name wins over every other,
      the recorded endpoint is the second choice, and a nil entry crashes the search exactly when
      no token with the name stands before it. */
  lemma ChoiceIs(tokens: Tokens, l: Location)
    ensures
      var unnamed := OtherName(l.name);
      var elsewhere := OtherEndpoint(l.endpoint);
      match Choose(tokens, l)
      case NoTokens => tokens == []
      case Panics => exists i: nat :: FirstAt(tokens, i, unnamed) && tokens[i].None?
      case Chosen(t, false) => t.accessKey == l.name && exists i: nat :: FirstAt(tokens, i, unnamed) && tokens[i] == Some(t)
      case Chosen(t, true) =>
        && (forall i :: 0 <= i < |tokens| ==> tokens[i].Some? && unnamed(tokens[i].value))
        && t.endpoint == l.endpoint && exists i: nat :: FirstAt(tokens, i, elsewhere) && tokens[i] == Some(t)
      case NotFound =>
        && tokens != []
        && forall i :: 0 <= i < |tokens| ==> tokens[i].Some? && unnamed(tokens[i].value) && elsewhere(tokens[i].value)
  {
    ByNameScan(tokens, l.name);
    ByEndpointScan(tokens, l.endpoint);
  }

  /** A recorded change settles the account: with the same tokens the next run changes nothing
      more. It works with the recorded token exactly when no different token with the same key
      stands before it. */
  lemma ChoiceSettles(tokens: Tokens, l: Location)
    requires Choose(tokens, l).Chosen?
    ensures
      var first := Choose(tokens, l);
      var again := Choose(tokens, Recorded(l, first));
      && again.Chosen? && !again.changed
      && (again.token == first.token <==>
            !first.changed || Unshadowed(tokens, first.token))
  {
    var first := Choose(tokens, l);
    if first.changed {
      MissMeansNoNil(tokens, l.name);
      ByEndpointHit(tokens, l.endpoint);
      ByNameFinds(tokens, first.token);
      ByNameIs(tokens, first.token);
    }
  }

  /** A changed account always serves the endpoint of the backup. */
  lemma ChangeKeepsEndpoint(tokens: Tokens, l: Location)
    requires Choose(tokens, l).Chosen? && Choose(tokens, l).changed
    ensures Choose(tokens, l).token.endpoint == l.endpoint && Choose(tokens, l).token.accessKey != l.name
    ensures Recorded(l, Choose(tokens, l)) == Location(Choose(tokens, l).token.accessKey, l.endpoint)
  {
    var t := Choose(tokens, l).token;
    ByEndpointHit(tokens, l.endpoint);
    MissMeansNoNil(tokens, l.name);
    if t.accessKey == l.name { ByNameFinds(tokens, t); }
  }
}
