/** How a call travels between nodes: the function is written as a
    `__callable__` record (CallableEncoder.default), read back through a
    registry standing for import_module/getattr (as_callable), and the call's
    attributes are written by to_dict and read back as constructor keywords. */
module Marshal {
  import opened Base
  import opened JsonModel

  /** A Python callable as the encoder sees it: which of `__name__`,
      `__module__` and `__qualname__` it has, the to_dict() of the Wazuh
      object it is bound to (if `__self__` is a Wazuh), and its type's name. */
  datatype PyCallable = PyCallable(
    name: Option<string>,
    moduleName: Option<string>,
    qualname: Option<string>,
    wazuhSelf: Option<Fields>,
    typeName: string)

  /** An object the JSON encoder cannot write by itself. */
  datatype PyObject = Callable(f: PyCallable) | Uncallable(typeName: string)

  /** `attributes[key] = value` when `present`. */
  function SetIf(a: Fields, present: bool, key: string, value: Json): (r: Fields)
    ensures Lookup(r, key) == (if present then Some(value) else Lookup(a, key))
    ensures forall k :: k != key ==> Lookup(r, k) == Lookup(a, k)
  {
    if present then Put(a, key, value) else a
  }

  /** The attributes of the `__callable__` record. */
  function CallableAttributes(f: PyCallable): (a: Fields)
    ensures Lookup(a, "__name__") == (if f.name.Some? then Some(JStr(f.name.value)) else None)
    ensures Lookup(a, "__module__") == (if f.moduleName.Some? then Some(JStr(f.moduleName.value)) else None)
    ensures Lookup(a, "__qualname__") == (if f.qualname.Some? then Some(JStr(f.qualname.value)) else None)
    ensures Lookup(a, "__wazuh__") == (if f.wazuhSelf.Some? then Some(JObj(f.wazuhSelf.value)) else None)
    ensures Lookup(a, "__type__") == Some(JStr(f.typeName))
    ensures Lookup(a, "__callable__") == None
  {
    var a1 := SetIf([], f.name.Some?, "__name__", JStr(if f.name.Some? then f.name.value else ""));
    var a2 := SetIf(a1, f.moduleName.Some?, "__module__", JStr(if f.moduleName.Some? then f.moduleName.value else ""));
    var a3 := SetIf(a2, f.qualname.Some?, "__qualname__", JStr(if f.qualname.Some? then f.qualname.value else ""));
    var a4 := SetIf(a3, f.wazuhSelf.Some?, "__wazuh__", JObj(if f.wazuhSelf.Some? then f.wazuhSelf.value else []));
    Put(a4, "__type__", JStr(f.typeName))
  }

  /** The record CallableEncoder.default writes for a callable. */
  function EncodeCallable(f: PyCallable): (r: Json)
    ensures r.JObj? && Keys(r.fields) == {"__callable__"}
    ensures Lookup(r.fields, "__callable__") == Some(JObj(CallableAttributes(f)))
  {
    var r := [("__callable__", JObj(CallableAttributes(f)))];
    assert r[1..] == [];
    JObj(r)
  }

  /** CallableEncoder.default: a callable becomes its record; anything else
      goes to JSONEncoder.default, which raises TypeError. */
  function Default(o: PyObject): (r: Outcome<Json>)
    ensures o.Callable? ==> r == Returned(EncodeCallable(o.f))
    ensures o.Uncallable? ==> r.Raised? && r.exc == OtherError("Object of type " + o.typeName + " is not JSON serializable")
  {
    match o
    case Callable(f) => Returned(EncodeCallable(f))
    case Uncallable(t) => Raised(OtherError("Object of type " + t + " is not JSON serializable"))
  }

  // ---------------------------------------------------------------- decoding

  /** What getattr on an imported module finds: a function, or a class with
      the callable that stands for the class itself and its members. */
  datatype Attr = Fn(f: PyCallable) | Cls(asObject: PyCallable, members: map<string, PyCallable>)

  function AttrValue(a: Attr): PyCallable
  {
    match a
    case Fn(f) => f
    case Cls(c, _) => c
  }

  /** import_module/getattr as lookups: the attributes of every importable
      module, and the methods of a Wazuh object by its ossec_path and name. */
  datatype Registry = Registry(
    modules: map<string, map<string, Attr>>,
    wazuhMethods: map<(Json, string), PyCallable>)

  /** What the object hook hands back: a callable, or the dict unchanged. */
  datatype Decoded = AsFunction(f: PyCallable) | AsDict(fields: Fields)

  /** The TypeError that a KeyError or AttributeError is turned into. */
  const CannotDecode := OtherError("Wazuh object cannot be decoded from JSON")

  /** getattr's TypeError for a name that is not a str; it is not converted. */
  const NameNotStr := OtherError("getattr(): attribute name must be string")

  /** import_module's ModuleNotFoundError; it is not converted either. */
  function NoModule(name: string): Exc
  {
    OtherError("No module named '" + name + "'")
  }

  /** The TypeError of `encoded_callable['__name__']` on a value that is not
      a dict. */
  function SubscriptError(j: Json): Exc
  {
    match j
    case JList(_) => OtherError("list indices must be integers or slices, not str")
    case JStr(_) => OtherError("string indices must be integers")
    case _ => OtherError("'" + TypeName(j) + "' object is not subscriptable")
  }

  /** The default installation path of a Wazuh object. */
  const DefaultOssecPath := "/var/ossec"

  predicate HasDot(s: string)
  {
    exists i :: 0 <= i < |s| && s[i] == '.'
  }

  /** The part of s before its first dot. */
  function BeforeDot(s: string): (r: string)
    ensures r <= s
    ensures !HasDot(s) ==> r == s
    ensures forall i :: 0 <= i < |r| ==> r[i] != '.'
  {
    if s == [] || s[0] == '.' then []
    else [s[0]] + BeforeDot(s[1..])
  }

  /** `qualname.split('.')`: the class is its first segment when there are
      several. */
  function ClassOf(qualname: string): Option<string>
  {
    if HasDot(qualname) then Some(BeforeDot(qualname)) else None
  }

  /** The bound method of `Wazuh(ossec_path=...)` named funcname. */
  function DecodeWazuhMethod(wazuhDict: Json, funcname: Json, reg: Registry): Outcome<Decoded>
  {
    if !wazuhDict.JObj? then Raised(CannotDecode)              // no attribute 'get'
    else
      var path := if "path" in Keys(wazuhDict.fields) then Lookup(wazuhDict.fields, "path").value
                  else JStr(DefaultOssecPath);
      if !funcname.JStr? then Raised(NameNotStr)
      else if (path, funcname.s) in reg.wazuhMethods then Returned(AsFunction(reg.wazuhMethods[(path, funcname.s)]))
      else Raised(CannotDecode)                                // no such attribute
  }

  /** A module function or a function of a class in a module, looked up in
      Python's order: qualname, module, import, then the class, and the
      name's type only when getattr is called with it. */
  function DecodeModuleFunction(e: Fields, funcname: Json, reg: Registry): Outcome<Decoded>
  {
    var q := Lookup(e, "__qualname__");
    if q.None? || !q.value.JStr? then Raised(CannotDecode)     // KeyError, or no attribute 'split'
    else
      var classname := ClassOf(q.value.s);
      var mp := Lookup(e, "__module__");
      if mp.None? || !mp.value.JStr? then Raised(CannotDecode) // KeyError, or no attribute 'startswith'
      else if mp.value.s == "" then Raised(OtherError("Empty module name"))
      else if mp.value.s !in reg.modules then Raised(NoModule(mp.value.s))
      else
        var mod := reg.modules[mp.value.s];
        if classname.None? then
          if !funcname.JStr? then Raised(NameNotStr)
          else if funcname.s in mod then Returned(AsFunction(AttrValue(mod[funcname.s])))
          else Raised(CannotDecode)
        else if classname.value !in mod then Raised(CannotDecode) // getattr(module, classname)
        else if !funcname.JStr? then Raised(NameNotStr)
        else if mod[classname.value].Cls? && funcname.s in mod[classname.value].members then
          Returned(AsFunction(mod[classname.value].members[funcname.s]))
        else Raised(CannotDecode)
  }

  /** as_callable, the object hook of json.loads. */
  function AsCallable(dct: Fields, reg: Registry): (r: Outcome<Decoded>)
    ensures "__callable__" !in Keys(dct) ==> r == Returned(AsDict(dct))
    ensures "__callable__" in Keys(dct) ==> !(r.Returned? && r.value.AsDict?)
  {
    if "__callable__" !in Keys(dct) then Returned(AsDict(dct))
    else
      var ec := Lookup(dct, "__callable__").value;
      if !ec.JObj? then Raised(SubscriptError(ec))
      else
        var e := ec.fields;
        if "__name__" !in Keys(e) then Raised(CannotDecode)
        else
          var funcname := Lookup(e, "__name__").value;
          if "__wazuh__" in Keys(e) then DecodeWazuhMethod(Lookup(e, "__wazuh__").value, funcname, reg)
          else DecodeModuleFunction(e, funcname, reg)
  }

  /** A record without `__name__` cannot be decoded. */
  lemma NamelessCannotBeDecoded(f: PyCallable, reg: Registry)
    requires f.name.None?
    ensures AsCallable(EncodeCallable(f).fields, reg) == Raised(CannotDecode)
  {
  }

  /** dct holds the record e under `__callable__`, and e has a `__name__`. */
  predicate NamedRecord(dct: Fields, e: Fields)
  {
    Lookup(dct, "__callable__") == Some(JObj(e)) && "__name__" in Keys(e)
  }

  /** A KeyError or AttributeError before the import becomes the TypeError:
      `__qualname__` or `__module__` is missing or is not a str. */
  lemma BadRecordCannotBeDecoded(dct: Fields, e: Fields, reg: Registry)
    requires NamedRecord(dct, e) && "__wazuh__" !in Keys(e)
    requires var q := Lookup(e, "__qualname__"); var m := Lookup(e, "__module__");
      q.None? || !q.value.JStr? || m.None? || !m.value.JStr?
    ensures AsCallable(dct, reg) == Raised(CannotDecode)
  {
  }

  /** An attribute the imported module lacks becomes the TypeError: the
      function of a dotless qualname, the class of a dotted one (looked up
      before the name's type matters), or the member of that class. */
  lemma MissingAttributeCannotBeDecoded(dct: Fields, e: Fields, reg: Registry, q: string, m: string)
    requires NamedRecord(dct, e) && "__wazuh__" !in Keys(e)
    requires Lookup(e, "__qualname__") == Some(JStr(q)) && Lookup(e, "__module__") == Some(JStr(m))
    requires m != "" && m in reg.modules
    requires var n := Lookup(e, "__name__").value; var c := ClassOf(q); var mod := reg.modules[m];
      if c.None? then n.JStr? && n.s !in mod
      else c.value !in mod || (n.JStr? && !(mod[c.value].Cls? && n.s in mod[c.value].members))
    ensures AsCallable(dct, reg) == Raised(CannotDecode)
  {
  }

  /** A `__wazuh__` value that is not a dict, or a method the Wazuh object
      lacks, becomes the TypeError. */
  lemma MissingWazuhMethodCannotBeDecoded(dct: Fields, e: Fields, reg: Registry)
    requires NamedRecord(dct, e) && "__wazuh__" in Keys(e)
    requires var w := Lookup(e, "__wazuh__").value; var n := Lookup(e, "__name__").value;
      !w.JObj? || (n.JStr? && (WazuhPath(w.fields), n.s) !in reg.wazuhMethods)
    ensures AsCallable(dct, reg) == Raised(CannotDecode)
  {
  }

  /** What import_module raises is not converted: ValueError for an empty
      name, ModuleNotFoundError for a module it does not know. */
  lemma UnknownModuleIsNotConverted(dct: Fields, e: Fields, reg: Registry, m: string)
    requires NamedRecord(dct, e) && "__wazuh__" !in Keys(e)
    requires Lookup(e, "__qualname__").Some? && Lookup(e, "__qualname__").value.JStr?
    requires Lookup(e, "__module__") == Some(JStr(m)) && (m == "" || m !in reg.modules)
    ensures AsCallable(dct, reg) == Raised(if m == "" then OtherError("Empty module name") else NoModule(m))
    ensures AsCallable(dct, reg) != Raised(CannotDecode)
  {
    if m != "" {
      assert NoModule(m).message[0] == 'N';
    }
  }

  /** getattr's TypeError for a `__name__` that is not a str is not converted.
      It is raised once the Wazuh object is built, or once the module and,
      for a dotted qualname, the class are found. */
  lemma NonStrNameIsNotConverted(dct: Fields, e: Fields, reg: Registry)
    requires NamedRecord(dct, e) && !Lookup(e, "__name__").value.JStr?
    requires if "__wazuh__" in Keys(e) then Lookup(e, "__wazuh__").value.JObj?
      else
        var q := Lookup(e, "__qualname__"); var mp := Lookup(e, "__module__");
        q.Some? && q.value.JStr? && mp.Some? && mp.value.JStr? && mp.value.s != ""
        && mp.value.s in reg.modules
        && (ClassOf(q.value.s).None? || ClassOf(q.value.s).value in reg.modules[mp.value.s])
    ensures AsCallable(dct, reg) == Raised(NameNotStr)
  {
  }

  /** An encoded callable the registry cannot find raises the TypeError. */
  lemma UnresolvedCannotBeDecoded(f: PyCallable, reg: Registry)
    requires f.name.Some?
    requires if f.wazuhSelf.Some? then (WazuhPath(f.wazuhSelf.value), f.name.value) !in reg.wazuhMethods
      else
        f.qualname.None? || f.moduleName.None? ||
        (f.moduleName.value != "" && f.moduleName.value in reg.modules &&
         var c := ClassOf(f.qualname.value); var mod := reg.modules[f.moduleName.value];
         if c.None? then f.name.value !in mod
         else c.value !in mod || !(mod[c.value].Cls? && f.name.value in mod[c.value].members))
    ensures AsCallable(EncodeCallable(f).fields, reg) == Raised(CannotDecode)
  {
    var dct, e := EncodeCallable(f).fields, CallableAttributes(f);
    assert NamedRecord(dct, e);
    if f.wazuhSelf.Some? {
      MissingWazuhMethodCannotBeDecoded(dct, e, reg);
    } else if f.qualname.None? || f.moduleName.None? {
      BadRecordCannotBeDecoded(dct, e, reg);
    } else {
      MissingAttributeCannotBeDecoded(dct, e, reg, f.qualname.value, f.moduleName.value);
    }
  }

  /** Whether the registry finds f again from its record. */
  predicate Resolves(reg: Registry, f: PyCallable)
  {
    AsCallable(EncodeCallable(f).fields, reg) == Returned(AsFunction(f))
  }

  /** A module-level function comes back as the module's attribute. */
  lemma ModuleFunctionRoundTrip(f: PyCallable, reg: Registry)
    requires f.name.Some? && f.moduleName.Some? && f.qualname.Some? && f.wazuhSelf.None?
    requires !HasDot(f.qualname.value)
    requires f.moduleName.value != "" && f.moduleName.value in reg.modules && f.name.value in reg.modules[f.moduleName.value]
    requires AttrValue(reg.modules[f.moduleName.value][f.name.value]) == f
    ensures Resolves(reg, f)
  {
  }

  /** A function whose qualname is `C.name` comes back as the member of class
      C of its module. */
  lemma ClassFunctionRoundTrip(f: PyCallable, reg: Registry, c: string)
    requires f.name.Some? && f.moduleName.Some? && f.qualname.Some? && f.wazuhSelf.None?
    requires !HasDot(c) && f.qualname.value == c + "." + f.name.value
    requires f.moduleName.value != "" && f.moduleName.value in reg.modules && c in reg.modules[f.moduleName.value]
    requires reg.modules[f.moduleName.value][c].Cls?
    requires f.name.value in reg.modules[f.moduleName.value][c].members
    requires reg.modules[f.moduleName.value][c].members[f.name.value] == f
    ensures Resolves(reg, f)
  {
    var q := f.qualname.value;
    assert q[|c|] == '.';
    assert HasDot(q);
    BeforeDotOfJoin(c, f.name.value);
  }

  lemma {:induction false} BeforeDotOfJoin(c: string, rest: string)
    requires !HasDot(c)
    ensures BeforeDot(c + "." + rest) == c
  {
    if c != [] {
      assert (c + "." + rest)[1..] == c[1..] + "." + rest;
      assert !HasDot(c[1..]) by {
        forall i | 0 <= i < |c[1..]| ensures c[1..][i] != '.' { assert c[1..][i] == c[i + 1]; }
      }
      BeforeDotOfJoin(c[1..], rest);
    }
  }

  /** The ossec_path a Wazuh object's to_dict() record gives back. */
  function WazuhPath(w: Fields): Json
  {
    if "path" in Keys(w) then Lookup(w, "path").value else JStr(DefaultOssecPath)
  }

  /** A method bound to a Wazuh object comes back as the method of a fresh
      Wazuh object with the same ossec_path (/var/ossec when the record has
      no path). */
  lemma WazuhMethodRoundTrip(f: PyCallable, reg: Registry)
    requires f.name.Some? && f.wazuhSelf.Some?
    requires (WazuhPath(f.wazuhSelf.value), f.name.value) in reg.wazuhMethods
    requires reg.wazuhMethods[(WazuhPath(f.wazuhSelf.value), f.name.value)] == f
    ensures Resolves(reg, f)
  {
  }

  // ---------------------------------------------------------------- the call on the wire

  /** The six attributes to_dict writes. */
  datatype CallRecord = CallRecord(
    f: PyCallable,
    fKwargs: Kwargs,
    requestType: string,
    waitForComplete: bool,
    fromCluster: bool,
    isAsync: bool)

  /** The keyword parameters of DistributedAPI's constructor. */
  const ConstructorKeywords: set<string> :=
    {"f", "logger", "f_kwargs", "node", "debug", "pretty", "request_type",
     "wait_for_complete", "from_cluster", "is_async"}

  /** The keywords the request queue passes itself next to the decoded ones. */
  const QueueKeywords: set<string> := {"logger", "node"}

  /** The keys to_dict writes. */
  const WireKeys: set<string> :=
    {"f", "f_kwargs", "request_type", "wait_for_complete", "from_cluster", "is_async"}

  /** to_dict() written with CallableEncoder. */
  function ToWire(c: CallRecord): (r: Json)
    ensures r.JObj? && Keys(r.fields) == WireKeys
    ensures Lookup(r.fields, "__callable__") == None && Lookup(r.fields, "debug") == None
    ensures Lookup(r.fields, "f") == Some(EncodeCallable(c.f))
    ensures Lookup(r.fields, "f_kwargs") == Some(JObj(c.fKwargs))
    ensures Lookup(r.fields, "request_type") == Some(JStr(c.requestType))
    ensures Lookup(r.fields, "wait_for_complete") == Some(JBool(c.waitForComplete))
    ensures Lookup(r.fields, "from_cluster") == Some(JBool(c.fromCluster))
    ensures Lookup(r.fields, "is_async") == Some(JBool(c.isAsync))
  {
    JObj(WireDict(EncodeCallable(c.f), JObj(c.fKwargs), JStr(c.requestType),
                  JBool(c.waitForComplete), JBool(c.fromCluster), JBool(c.isAsync)))
  }

  /** The dict literal of to_dict, value by value. */
  function WireDict(f: Json, kw: Json, rt: Json, wfc: Json, fc: Json, ia: Json): (r: Fields)
    ensures Keys(r) == WireKeys
    ensures Lookup(r, "f") == Some(f) && Lookup(r, "f_kwargs") == Some(kw)
    ensures Lookup(r, "request_type") == Some(rt) && Lookup(r, "wait_for_complete") == Some(wfc)
    ensures Lookup(r, "from_cluster") == Some(fc) && Lookup(r, "is_async") == Some(ia)
    ensures Lookup(r, "__callable__") == None && Lookup(r, "debug") == None
  {
    var r1 := Put([], "f", f);
    var r2 := Put(r1, "f_kwargs", kw);
    var r3 := Put(r2, "request_type", rt);
    var r4 := Put(r3, "wait_for_complete", wfc);
    var r5 := Put(r4, "from_cluster", fc);
    Put(r5, "is_async", ia)
  }

  lemma ConstructorTakesWireKeys()
    ensures WireKeys <= ConstructorKeywords - QueueKeywords
  {
  }

  /** The value of an optional keyword of kind bool, string or dict. */
  function BoolArg(d: Fields, k: string, fallback: bool): Outcome<bool>
  {
    match Lookup(d, k)
    case None => Returned(fallback)
    case Some(v) => if v.JBool? then Returned(v.b) else Raised(OtherError("argument " + k + " is not a bool"))
  }

  function StrArg(d: Fields, k: string, fallback: string): Outcome<string>
  {
    match Lookup(d, k)
    case None => Returned(fallback)
    case Some(v) => if v.JStr? then Returned(v.s) else Raised(OtherError("argument " + k + " is not a string"))
  }

  function DictArg(d: Fields, k: string): Outcome<Kwargs>
  {
    match Lookup(d, k)
    case None => Returned([])
    case Some(v) => if v.JObj? then Returned(v.fields) else Raised(OtherError("argument " + k + " is not a dict"))
  }

  /** `DistributedAPI(**json.loads(request, object_hook=as_callable), logger=..., node=...)`:
      the call and its debug flag, or the TypeError of a bad keyword set. */
  function FromWire(j: Json, reg: Registry): (r: Outcome<(CallRecord, bool)>)
    ensures r.Returned? ==> j.JObj? && Keys(j.fields) <= ConstructorKeywords - QueueKeywords && "f" in Keys(j.fields)
  {
    if !j.JObj? then Raised(OtherError("argument after ** must be a mapping"))
    else
      var d := j.fields;
      if "__callable__" in Keys(d) then Raised(OtherError("argument after ** must be a mapping"))
      else if !(Keys(d) <= ConstructorKeywords - QueueKeywords) then Raised(OtherError("unexpected or repeated keyword argument"))
      else if "f" !in Keys(d) then Raised(OtherError("missing required argument: 'f'"))
      else
        var fv := Lookup(d, "f").value;
        var f := if fv.JObj? then AsCallable(fv.fields, reg) else Raised(OtherError("f is not callable"));
        if f.Raised? then Raised(f.exc)
        else if f.value.AsDict? then Raised(OtherError("f is not callable"))
        else ReadArgs(d, f.value.f)
  }

  /** The keyword arguments after `f`, with the constructor's defaults. */
  function ReadArgs(d: Fields, f: PyCallable): Outcome<(CallRecord, bool)>
  {
    var kw := DictArg(d, "f_kwargs");
    var rt := StrArg(d, "request_type", "local_master");
    var wfc := BoolArg(d, "wait_for_complete", false);
    var fc := BoolArg(d, "from_cluster", false);
    var ia := BoolArg(d, "is_async", false);
    var dbg := BoolArg(d, "debug", false);
    if kw.Raised? then Raised(kw.exc)
    else if rt.Raised? then Raised(rt.exc)
    else if wfc.Raised? then Raised(wfc.exc)
    else if fc.Raised? then Raised(fc.exc)
    else if ia.Raised? then Raised(ia.exc)
    else if dbg.Raised? then Raised(dbg.exc)
    else Returned((CallRecord(f, kw.value, rt.value, wfc.value, fc.value, ia.value), dbg.value))
  }

  /** What to_dict writes, the constructor takes back: the same call, with
      debug off since to_dict does not carry it. */
  lemma WireRoundTrip(c: CallRecord, reg: Registry)
    requires Resolves(reg, c.f)
    ensures FromWire(ToWire(c), reg) == Returned((c, false))
  {
    var w := ToWire(c).fields;
    ConstructorTakesWireKeys();
    assert ReadArgs(w, c.f) == Returned((c, false));
  }
}
