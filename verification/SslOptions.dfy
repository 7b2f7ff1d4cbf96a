/** The client's SSL options: what each option on the command line does to the mode
    (MySQL Server 5.7/include/sslopt-case.h:29-64) and what is made of the outcome
    (MySQL Server 5.7/include/sslopt-vars.h:38-76). */
module SslOptions {
  import opened Bytes

  const DISABLED: int := 1
  const PREFERRED: int := 2
  const REQUIRED: int := 3
  const VERIFY_CA: int := 4
  const VERIFY_IDENTITY: int := 5

  type Mode = m: int | DISABLED <= m <= VERIFY_IDENTITY witness PREFERRED

  /** Options in the order given. A name that is not a mode ends the program and is no option here. */
  datatype Opt =
    | SslMode(mode: Mode)
    | Ssl(on: bool)
    | VerifyServerCert(on: bool)
    | Ca(path: string)
    | CaPath(path: string)
    | Key(path: string) | Cert(path: string) | Cipher(name: string) | Other

  datatype State = State(
    mode: Mode, explicitly: bool, ca: Option<string>, capath: Option<string>,
    key: Option<string>, cert: Option<string>, cipher: Option<string>)

  const Initial := State(PREFERRED, false, None, None, None, None, None)

  /** The variables and the switch over the options. */
  class ClientOptions {
    var mode: Mode
    var explicitly: bool
    var ca: Option<string>
    var capath: Option<string>
    var key: Option<string>
    var cert: Option<string>
    var cipher: Option<string>

    function View(): State
      reads this
    {
      State(mode, explicitly, ca, capath, key, cert, cipher)
    }

    constructor ()
      ensures View() == Initial
    {
      mode, explicitly := PREFERRED, false;
      ca, capath, key, cert, cipher := None, None, None, None, None;
    }

    /** Handles one option; the option parser has stored the value of a path option before. */
    method Handle(opt: Opt)
      modifies this
      ensures View() == Apply(old(View()), opt)
    {
      match opt
      case SslMode(m) =>
        mode := m;
        explicitly := true;
      case Ssl(on) =>
        if !on {
          mode := DISABLED;
        } else if mode < REQUIRED {
          mode := REQUIRED;
        }
      case VerifyServerCert(on) =>
        if !on {
          if mode >= VERIFY_IDENTITY {
            mode := VERIFY_CA;
          }
        } else {
          mode := VERIFY_IDENTITY;
        }
      case Ca(path) =>
        ca := Some(path);
        if !explicitly {
          mode := VERIFY_CA;
        }
      case CaPath(path) =>
        capath := Some(path);
        if !explicitly {
          mode := VERIFY_CA;
        }
      case Key(path) => key := Some(path);
      case Cert(path) => cert := Some(path);
      case Cipher(name) => cipher := Some(name);
      case Other =>
    }

    /** `set_client_ssl_options`: whether the warning is printed, and what `mysql_ssl_set` is given. */
    method SetClientSslOptions() returns (warned: bool, s: Settings)
      ensures warned == Warned(View()) && s == Decide(View())
    {
      warned := explicitly && mode < VERIFY_CA && (ca.Some? || capath.Some?);
      if mode >= VERIFY_CA {
        s := Settings(key, cert, ca, capath, cipher, mode);
      } else {
        s := Settings(key, cert, None, None, cipher, mode);
      }
    }
  }

  function Apply(s: State, opt: Opt): State {
    match opt
    case SslMode(m) => s.(mode := m, explicitly := true)
    case Ssl(on) => if !on then s.(mode := DISABLED) else if s.mode < REQUIRED then s.(mode := REQUIRED) else s
    case VerifyServerCert(on) =>
      if on then s.(mode := VERIFY_IDENTITY) else if s.mode >= VERIFY_IDENTITY then s.(mode := VERIFY_CA) else s
    case Ca(path) => s.(ca := Some(path), mode := if s.explicitly then s.mode else VERIFY_CA)
    case CaPath(path) => s.(capath := Some(path), mode := if s.explicitly then s.mode else VERIFY_CA)
    case Key(path) => s.(key := Some(path))
    case Cert(path) => s.(cert := Some(path))
    case Cipher(name) => s.(cipher := Some(name))
    case Other => s
  }

  /** The state after a list of options. */
  function Run(s: State, opts: seq<Opt>): State {
    if opts == [] then s else Apply(Run(s, opts[..|opts| - 1]), opts[|opts| - 1])
  }

  datatype Settings = Settings(
    key: Option<string>, cert: Option<string>, ca: Option<string>, capath: Option<string>, cipher: Option<string>, mode: Mode)

  predicate Supplied(s: State) {
    s.ca.Some? || s.capath.Some?
  }

  predicate Warned(s: State) {
    s.explicitly && s.mode < VERIFY_CA && Supplied(s)
  }

  function Decide(s: State): Settings {
    if s.mode >= VERIFY_CA then Settings(s.key, s.cert, s.ca, s.capath, s.cipher, s.mode)
    else Settings(s.key, s.cert, None, None, s.cipher, s.mode)
  }

  // ---------------------------------------------------------------- over all option lists

  /** Once the mode is REQUIRED or stronger, only `--ssl=0` or an explicit `--ssl-mode` can
      bring it below REQUIRED. */
  lemma {:induction false} StaysRequired(s: State, opts: seq<Opt>)
    requires s.mode >= REQUIRED
    requires forall i :: 0 <= i < |opts| ==> !opts[i].SslMode? && opts[i] != Ssl(false)
    ensures Run(s, opts).mode >= REQUIRED
  {
    if opts != [] {
      StaysRequired(s, opts[..|opts| - 1]);
    }
  }

  /** The last `--ssl-mode` stands, wherever the CA options are, as long as neither `--ssl`
      nor `--ssl-verify-server-cert` comes after it. */
  lemma {:induction false} LastModeStands(s: State, before: seq<Opt>, m: Mode, after: seq<Opt>)
    requires forall i :: 0 <= i < |after| ==> !after[i].SslMode? && !after[i].Ssl? && !after[i].VerifyServerCert?
    ensures var v := Run(s, before + [SslMode(m)] + after); v.mode == m && v.explicitly
  {
    var opts := before + [SslMode(m)] + after;
    if after == [] {
      assert opts[..|opts| - 1] == before;
    } else {
      var k := |after| - 1;
      LastModeStands(s, before, m, after[..k]);
      assert opts[..|opts| - 1] == before + [SslMode(m)] + after[..k];
      assert opts[|opts| - 1] == after[k];
    }
  }

  predicate IsCa(opt: Opt) {
    opt.Ca? || opt.CaPath?
  }

  predicate HasCa(opts: seq<Opt>) {
    opts != [] && (IsCa(opts[|opts| - 1]) || HasCa(opts[..|opts| - 1]))
  }

  predicate HasMode(opts: seq<Opt>) {
    opts != [] && (opts[|opts| - 1].SslMode? || HasMode(opts[..|opts| - 1]))
  }

  /** The last option among the CA options, `--ssl=0` and `--ssl-verify-server-cert`. */
  function LastSay(opts: seq<Opt>): Option<Opt> {
    if opts == [] then None
    else
      var opt := opts[|opts| - 1];
      if IsCa(opt) || opt == Ssl(false) || opt == VerifyServerCert(true) then Some(opt)
      else LastSay(opts[..|opts| - 1])
  }

  /** What the options leave behind. */
  lemma {:induction false} RunFlags(opts: seq<Opt>)
    ensures Run(Initial, opts).explicitly <==> HasMode(opts)
    ensures Supplied(Run(Initial, opts)) <==> HasCa(opts)
    ensures HasCa(opts) ==> LastSay(opts).Some?
  {
    if opts != [] {
      RunFlags(opts[..|opts| - 1]);
    }
  }

  lemma {:induction false} RunMode(opts: seq<Opt>)
    requires !HasMode(opts)
    ensures Run(Initial, opts).mode < VERIFY_CA <==> LastSay(opts) == None || LastSay(opts) == Some(Ssl(false))
  {
    if opts != [] {
      RunMode(opts[..|opts| - 1]);
      RunFlags(opts[..|opts| - 1]);
    }
  }

  /** A certificate authority the user named is withheld from the connection without a
      warning if and only if there was no `--ssl-mode` at all and, of the CA options,
      `--ssl=0` and `--ssl-verify-server-cert`, the one given last is `--ssl=0`. */
  lemma SilentlyWithheldIff(opts: seq<Opt>)
    ensures var v := Run(Initial, opts);
            (Supplied(v) && Decide(v).ca == None && Decide(v).capath == None && !Warned(v))
            <==> HasCa(opts) && !HasMode(opts) && LastSay(opts) == Some(Ssl(false))
  {
    RunFlags(opts);
    if !HasMode(opts) {
      RunMode(opts);
    }
  }

  // ---------------------------------------------------------------- the exact outcome

  /** The mode an option decides by itself, given the options before it: an explicit mode,
      `--ssl=0`, a wish to verify the server's name, or a certificate authority as long as no
      mode was given. */
  function Decision(before: seq<Opt>, opt: Opt): Option<Mode> {
    if opt.SslMode? then Some(opt.mode)
    else if opt == Ssl(false) then Some(DISABLED)
    else if opt == VerifyServerCert(true) then Some(VERIFY_IDENTITY)
    else if IsCa(opt) && !HasMode(before) then Some(VERIFY_CA)
    else None
  }

  /** What options without a decision make of a mode: `--ssl` raises it to REQUIRED at least,
      `--ssl-verify-server-cert=0` lowers it to VERIFY_CA at most, in whatever order. */
  function Adjusted(m: Mode, opts: seq<Opt>): Mode {
    var raised := if Ssl(true) in opts then (if m < REQUIRED then REQUIRED else m) else m;
    if VerifyServerCert(false) in opts && raised > VERIFY_CA then VERIFY_CA else raised
  }

  /** `m` is what the last decision among the options says, and it is made at place `k`, counting
      from 1; without any decision it is PREFERRED, at place 0. */
  ghost predicate LastDecision(opts: seq<Opt>, k: nat, m: Mode) {
    && k <= |opts|
    && (if k == 0 then m == PREFERRED else Decision(opts[..k - 1], opts[k - 1]) == Some(m))
    && forall i :: k <= i < |opts| ==> Decision(opts[..i], opts[i]) == None
  }

  lemma ApplyMode(s: State, before: seq<Opt>, opt: Opt)
    requires s.explicitly <==> HasMode(before)
    ensures Apply(s, opt).mode ==
            if Decision(before, opt).Some? then Decision(before, opt).value else Adjusted(s.mode, [opt])
  {
    match opt
    case SslMode(_) =>
    case Ssl(_) =>
    case VerifyServerCert(_) =>
    case _ =>
  }

  lemma AdjustedStep(m: Mode, opts: seq<Opt>, opt: Opt)
    ensures Adjusted(Adjusted(m, opts), [opt]) == Adjusted(m, opts + [opt])
  {
    assert forall o :: o in opts + [opt] <==> o in opts || o == opt;
  }

  /** The mode over every option list: the last decision stands, adjusted by `--ssl` and
      `--ssl-verify-server-cert=0` where they come after it. */
  lemma {:induction false} FinalMode(opts: seq<Opt>, k: nat, m: Mode)
    requires LastDecision(opts, k, m)
    ensures Run(Initial, opts).mode == Adjusted(m, opts[k..])
  {
    if opts != [] {
      var n := |opts| - 1;
      var before, last := opts[..n], opts[n];
      RunFlags(before);
      ApplyMode(Run(Initial, before), before, last);
      if k < |opts| {
        LastDecisionBefore(opts, k, m);
        FinalMode(before, k, m);
        assert opts[k..] == before[k..] + [last];
        AdjustedStep(m, before[k..], last);
      }
    }
  }

  lemma LastDecisionBefore(opts: seq<Opt>, k: nat, m: Mode)
    requires k < |opts| && LastDecision(opts, k, m)
    ensures LastDecision(opts[..|opts| - 1], k, m)
  {
    var before := opts[..|opts| - 1];
    forall i | k <= i < |before| ensures Decision(before[..i], before[i]) == None {
      assert before[..i] == opts[..i];
    }
    assert k > 0 ==> before[..k - 1] == opts[..k - 1];
  }

  /** There is always a last decision. */
  lemma {:induction false} LastDecisionExists(opts: seq<Opt>) returns (k: nat, m: Mode)
    ensures LastDecision(opts, k, m)
  {
    if opts == [] {
      k, m := 0, PREFERRED;
    } else {
      var n := |opts| - 1;
      if Decision(opts[..n], opts[n]).Some? {
        k, m := |opts|, Decision(opts[..n], opts[n]).value;
      } else {
        k, m := LastDecisionExists(opts[..n]);
        forall i | k <= i < |opts| ensures Decision(opts[..i], opts[i]) == None {
          if i < n {
            assert opts[..n][..i] == opts[..i] && opts[..n][i] == opts[i];
          }
        }
        assert k > 0 ==> opts[..n][..k - 1] == opts[..k - 1];
      }
    }
  }

  /** The parameters of `mysql_ssl_set`. */
  datatype Parameter = KeyFile | CertFile | CaFile | CaDirectory | CipherList

  function ValueFor(opt: Opt, p: Parameter): Option<string> {
    match p
    case KeyFile => if opt.Key? then Some(opt.path) else None
    case CertFile => if opt.Cert? then Some(opt.path) else None
    case CaFile => if opt.Ca? then Some(opt.path) else None
    case CaDirectory => if opt.CaPath? then Some(opt.path) else None
    case CipherList => if opt.Cipher? then Some(opt.name) else None
  }

  function Passed(s: Settings, p: Parameter): Option<string> {
    match p
    case KeyFile => s.key
    case CertFile => s.cert
    case CaFile => s.ca
    case CaDirectory => s.capath
    case CipherList => s.cipher
  }

  /** The value given last for a parameter. */
  function LastValue(opts: seq<Opt>, p: Parameter): Option<string> {
    if opts == [] then None
    else if ValueFor(opts[|opts| - 1], p).Some? then ValueFor(opts[|opts| - 1], p)
    else LastValue(opts[..|opts| - 1], p)
  }

  function Stored(s: State, p: Parameter): Option<string> {
    match p
    case KeyFile => s.key
    case CertFile => s.cert
    case CaFile => s.ca
    case CaDirectory => s.capath
    case CipherList => s.cipher
  }

  lemma ApplyStores(s: State, opt: Opt, p: Parameter)
    ensures Stored(Apply(s, opt), p) == if ValueFor(opt, p).Some? then ValueFor(opt, p) else Stored(s, p)
  {
  }

  lemma {:induction false} RunStores(opts: seq<Opt>, p: Parameter)
    ensures Stored(Run(Initial, opts), p) == LastValue(opts, p)
  {
    if opts != [] {
      RunStores(opts[..|opts| - 1], p);
      ApplyStores(Run(Initial, opts[..|opts| - 1]), opts[|opts| - 1], p);
    }
  }

  /** Over every option list, the connection is given each value that was given last for it, the
      two for certificate authorities only if the mode is VERIFY_CA or stronger, and the mode. */
  lemma SettingsExact(opts: seq<Opt>, p: Parameter)
    ensures var v := Run(Initial, opts);
            && Decide(v).mode == v.mode
            && Passed(Decide(v), p) ==
                 if (p == CaFile || p == CaDirectory) && v.mode < VERIFY_CA then None else LastValue(opts, p)
  {
    RunStores(opts, p);
  }
}
