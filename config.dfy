/**
  The server configuration record (src/config.rs, `Server`): three string
  settings with defaults, each read by a getter and replaced by a setter.
*/
module Config {

  /** The three settings, and a name for each. */
  datatype Settings = Settings(bindAddr: string, tpvBcastFileLoc: string, staticContentLoc: string)
  datatype Field = BindAddr | TpvBcastFileLoc | StaticContentLoc

  /** The values `Server::new` starts with. */
  const Defaults: Settings := Settings("0.0.0.0:8080", "/home/stefan/shared/", "/home/stefan/devel/tpvbc2http/http")

  function Lookup(s: Settings, f: Field): string
  {
    match f
    case BindAddr => s.bindAddr
    case TpvBcastFileLoc => s.tpvBcastFileLoc
    case StaticContentLoc => s.staticContentLoc
  }

  /** Replacing one setting: it reads back as the new value and every other setting is kept. */
  function Assign(s: Settings, f: Field, v: string): (t: Settings)
    ensures Lookup(t, f) == v
    ensures forall g :: g != f ==> Lookup(t, g) == Lookup(s, g)
  {
    match f
    case BindAddr => s.(bindAddr := v)
    case TpvBcastFileLoc => s.(tpvBcastFileLoc := v)
    case StaticContentLoc => s.(staticContentLoc := v)
  }

  /** Settings that agree on every field are the same settings. */
  lemma SameFieldsSameSettings(s: Settings, t: Settings)
    requires forall f :: Lookup(s, f) == Lookup(t, f)
    ensures s == t
  {
    assert Lookup(s, BindAddr) == Lookup(t, BindAddr);
    assert Lookup(s, TpvBcastFileLoc) == Lookup(t, TpvBcastFileLoc);
    assert Lookup(s, StaticContentLoc) == Lookup(t, StaticContentLoc);
  }

  /** Setting the same value twice is setting it once. */
  lemma AssignIdempotent(s: Settings, f: Field, v: string)
    ensures Assign(Assign(s, f, v), f, v) == Assign(s, f, v)
  {
    SameFieldsSameSettings(Assign(Assign(s, f, v), f, v), Assign(s, f, v));
  }

  /** Of two settings of the same field, the later one is what remains. */
  lemma AssignLastWins(s: Settings, f: Field, v: string, w: string)
    ensures Assign(Assign(s, f, v), f, w) == Assign(s, f, w)
  {
    SameFieldsSameSettings(Assign(Assign(s, f, v), f, w), Assign(s, f, w));
  }

  class Server {
    var bindAddr: string
    var tpvBcastFileLoc: string
    var staticContentLoc: string

    /** The settings as a value. */
    function Current(): Settings
      reads this
    {
      Settings(bindAddr, tpvBcastFileLoc, staticContentLoc)
    }

    /** `Server::new`. */
    constructor ()
      ensures Current() == Defaults
    {
      bindAddr := Defaults.bindAddr;
      tpvBcastFileLoc := Defaults.tpvBcastFileLoc;
      staticContentLoc := Defaults.staticContentLoc;
    }

    method GetBindAddr() returns (addr: string)
      ensures addr == Lookup(Current(), BindAddr)
    {
      addr := bindAddr;
    }

    method SetBindAddr(addr: string)
      modifies this`bindAddr
      ensures Current() == Assign(old(Current()), BindAddr, addr)
    {
      bindAddr := addr;
    }

    method GetTpvBcastFileLoc() returns (loc: string)
      ensures loc == Lookup(Current(), TpvBcastFileLoc)
    {
      loc := tpvBcastFileLoc;
    }

    method SetTpvBcastFileLoc(loc: string)
      modifies this`tpvBcastFileLoc
      ensures Current() == Assign(old(Current()), TpvBcastFileLoc, loc)
    {
      tpvBcastFileLoc := loc;
    }

    method GetStaticContentLoc() returns (loc: string)
      ensures loc == Lookup(Current(), StaticContentLoc)
    {
      loc := staticContentLoc;
    }

    method SetStaticContentLoc(loc: string)
      modifies this`staticContentLoc
      ensures Current() == Assign(old(Current()), StaticContentLoc, loc)
    {
      staticContentLoc := loc;
    }
  }

  /** A client of the record: a setter followed by its getter reads back
      the new value, the other settings keep their defaults, and setting
      again with the same value changes nothing. */
  method SetThenGet(addr: string)
  {
    var cfg := new Server();
    cfg.SetBindAddr(addr);
    var after := cfg.Current();
    var a := cfg.GetBindAddr();
    var loc := cfg.GetTpvBcastFileLoc();
    assert a == addr && loc == Defaults.tpvBcastFileLoc;
    cfg.SetBindAddr(addr);
    AssignIdempotent(after, BindAddr, addr);
    assert cfg.Current() == after;
  }
}
