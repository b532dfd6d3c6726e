/**
  LAMMPS metadata: the unit styles, the table of data-file sections and the
  builders that specialise them to one unit style and one header.
 */
module LammpsMetadata {
  import opened Wrappers

  /** The key a failed lookup was looking for (Python's `KeyError`). */
  datatype KeyError = KeyError(key: string)

  /** An insertion-ordered dictionary with string keys, as a Python dict literal is. */
  type OrderedDict<V> = seq<(string, V)>

  /** The keys of an ordered dictionary, in order (`list(d)`). */
  function Keys<V>(d: OrderedDict<V>): (ks: seq<string>)
    ensures |ks| == |d|
    ensures forall i :: 0 <= i < |d| ==> ks[i] == d[i].0
  {
    seq(|d|, i requires 0 <= i < |d| => d[i].0)
  }

  /** No key occurs twice. */
  predicate Distinct(s: seq<string>) {
    forall i, j :: 0 <= i < j < |s| ==> s[i] != s[j]
  }

  /** The position of the first entry of `d` stored under `key`, or `|d|` when there is none. */
  function IndexOf<V>(d: OrderedDict<V>, key: string): (n: nat)
    ensures n <= |d|
    ensures forall j :: 0 <= j < n ==> d[j].0 != key
    ensures n < |d| ==> d[n].0 == key
  {
    if d == [] then 0
    else if d[0].0 == key then 0
    else 1 + IndexOf(d[1..], key)
  }

  /** `d[key]`: the value stored under `key`, or `None` where Python raises `KeyError`. */
  function Get<V>(d: OrderedDict<V>, key: string): (r: Option<V>)
    ensures r.None? <==> key !in Keys(d)
  {
    var n := IndexOf(d, key);
    if n < |d| then Some(d[n].1) else None
  }

  /** Looking up the key of entry `i` finds entry `i` when no earlier entry has that key. */
  lemma GetAt<V>(d: OrderedDict<V>, i: nat)
    requires i < |d|
    requires forall j :: 0 <= j < i ==> d[j].0 != d[i].0
    ensures Get(d, d[i].0) == Some(d[i].1)
  {
  }

  // ---------------------------------------------------------------------
  // Constant tables
  // ---------------------------------------------------------------------

  /** The header keywords that give the size of each section. */
  const SizeKeys: seq<string> := [
    "atoms", "atom types", "bonds", "bond types", "angles", "angle types", "dihedrals", "dihedral types", "impropers",
    "improper types"
  ]

  /** For each LAMMPS unit style, the unit of each abstract dimension. */
  const UnitsStyle: OrderedDict<map<string, string>> := [
    ("lj", LjUnits),
    ("real", RealUnits),
    ("metal", MetalUnits),
    ("si", SiUnits),
    ("cgs", CgsUnits),
    ("electron", ElectronUnits),
    ("micro", MicroUnits),
    ("nano", NanoUnits)
  ]

  /** The "lj" style (reduced units) gives no dimension a unit. */
  const LjUnits: map<string, string> := map[]

  /** The units of the "real" style. */
  const RealUnits: map<string, string> := map[
    "[mass]" := "(gram mol ** -1)",
    "[length]" := "angstrom",
    "[time]" := "femtosecond",
    "[energy]" := "(kcal mol ** -1)",
    "[velocity]" := "(angstrom femtosecond ** -1)",
    "[force]" := "(kcal * mol ** -1 angstrom ** -1)",
    "[torque]" := "(kcal * mol ** -1)",
    "[temperature]" := "kelvin",
    "[pressure]" := "atmosphere",
    "[dynamic viscosity]" := "poise",
    "[charge]" := "e",
    "[dipole]" := "e * angstrom",
    "[electric field]" := "(volt angstrom ** -1)",
    "[density]" := "(gram cm ** -dim)"
  ]

  /** The units of the "metal" style. */
  const MetalUnits: map<string, string> := map[
    "[mass]" := "(gram mol ** -1)",
    "[length]" := "(angstrom)",
    "[time]" := "(picosecond)",
    "[energy]" := "(eV)",
    "[velocity]" := "(angstrom picosecond ** -1)",
    "[force]" := "(eV angstrom ** -1)",
    "[torque]" := "(eV)",
    "[temperature]" := "(kelvin)",
    "[pressure]" := "(bar)",
    "[dynamic viscosity]" := "(poise)",
    "[charge]" := "(e)",
    "[dipole]" := "(e * angstrom)",
    "[electric field]" := "(volt angstrom ** -1)",
    "[density]" := "(gram cm ** -dim)"
  ]

  /** The units of the "si" style. */
  const SiUnits: map<string, string> := map[
    "[mass]" := "(kilogram)",
    "[length]" := "(meter)",
    "[time]" := "(second)",
    "[energy]" := "(joule)",
    "[velocity]" := "(meter second ** -1)",
    "[force]" := "(newtons)",
    "[torque]" := "(newton meter)",
    "[temperature]" := "(kelvin)",
    "[pressure]" := "(pascal)",
    "[dynamic viscosity]" := "(pascal second)",
    "[charge]" := "(coulomb)",
    "[dipole]" := "(coulomb meter)",
    "[electric field]" := "(volt meter ** -1)",
    "[density]" := "(kilogram meter ** -dim)"
  ]

  /** The units of the "cgs" style. */
  const CgsUnits: map<string, string> := map[
    "[mass]" := "(gram)",
    "[length]" := "(centimeters)",
    "[time]" := "(second)",
    "[energy]" := "(ergs)",
    "[velocity]" := "(centimeters second ** -1)",
    "[force]" := "(dyne)",
    "[torque]" := "(dyne centimeters)",
    "[temperature]" := "(kelvin)",
    "[pressure]" := "(dyne cm ** -2)",
    "[dynamic viscosity]" := "(poise)",
    "[charge]" := "(statcoulombs)",
    "[dipole]" := "(statcoulombs centimeter)",
    "[electric field]" := "(statvolt cm ** -1)",
    "[density]" := "(gram cm ** -dim)"
  ]

  /** The units of the "electron" style. */
  const ElectronUnits: map<string, string> := map[
    "[mass]" := "(amu)",
    "[length]" := "(Bohr)",
    "[time]" := "(femtosecond)",
    "[energy]" := "(hartree)",
    "[velocity]" := "(Bohr (atomic time unit) ** -1)",
    "[force]" := "(hartree Bohr ** -1)",
    "[temperature]" := "(kelvin)",
    "[pressure]" := "(pascal)",
    "[charge]" := "(e)",
    "[dipole] moment" := "(debye)",
    "[electric field]" := "(volt cm ** -1)"
  ]

  /** The units of the "micro" style. */
  const MicroUnits: map<string, string> := map[
    "[mass]" := "(picogram)",
    "[length]" := "(micrometer)",
    "[time]" := "(microsecond)",
    "[energy]" := "(picogram micrometer ** 2 microsecond ** -2)",
    "[velocity]" := "(micrometers microsecond ** -1)",
    "[force]" := "(picogram micrometer microsecond ** -2)",
    "[torque]" := "(picogram micrometer ** 2 microsecond ** -2)",
    "[temperature]" := "(kelvin)",
    "[pressure]" := "(picogram micrometer ** -1 microsecond ** -2)",
    "[dynamic viscosity]" := "(picogram micrometer ** -1 microsecond ** -1)",
    "[charge]" := "(picocoulomb)",
    "[dipole]" := "(picocoulomb micrometer)",
    "[electric field]" := "(volt micrometer ** -1)",
    "[density]" := "(picogram micrometer ** -dim)"
  ]

  /** The units of the "nano" style. */
  const NanoUnits: map<string, string> := map[
    "[mass]" := "(attogram)",
    "[length]" := "(nanometer)",
    "[time]" := "(nanosecond)",
    "[energy]" := "(attogram nanometer ** 2 nanosecond ** -2)",
    "[velocity]" := "(nanometers nanosecond ** -1)",
    "[force]" := "(attogram nanometer nanosecond ** -2)",
    "[torque]" := "(attogram nanometer ** 2 nanosecond ** -2)",
    "[temperature]" := "(kelvin)",
    "[pressure]" := "(attogram nanometer ** -1 nanosecond ** -2)",
    "[dynamic viscosity]" := "(attogram nanometer ** -1 nanosecond ** -1)",
    "[charge]" := "(e)",
    "[dipole]" := "(e nanometer)",
    "[electric field]" := "(volt nanometer ** -1)"
  ]

  /**
    The columns of each LAMMPS atom style. Where two string literals stand
    side by side without a comma they are one Python string, so "molecular",
    "smd" and "template" hold a joined column name.
   */
  const AtomStyle: map<string, seq<string>> := map[
    "angle" := ["atom_ID", "molecule_ID", "atom_type", "x", "y", "z"],
    "atomic" := ["atom_ID", "atom_type", "x", "y", "z"],
    "body" := ["atom_ID", "atom_type", "bodyflag", "mass", "x", "y", "z"],
    "bond" := ["atom_ID", "molecule_ID", "atom_type", "x", "y", "z"],
    "charge" := ["atom_id", "atom_type", "charge", "x", "y", "z"],
    "dipole" := ["atom_id", "atom_type", "charge", "x", "y", "z", "mux", "muy", "muz"],
    "dpd" := ["atom_id", "atom_type", "theta", "x", "y", "z"],
    "edpd" := ["atom_id", "atom_type", "edpd_temp", "edpd_cv", "x", "y", "z"],
    "mdpd" := ["atom_id", "atom_type", "x", "y", "z"],
    "electron" := ["atom_id", "atom_type", "charge", "spin eradius", "x", "y", "z"],
    "ellipsoid" := ["atom_id", "atom_type", "ellipsoidflag density", "x", "y", "z"],
    "full" := ["atom_id", "molecule-ID", "atom_type", "charge", "x", "y", "z"],
    "line" := ["atom_id", "molecule-ID", "atom_type", "lineflag", "density", "x", "y", "z"],
    "meso" := ["atom_id", "atom_type", "rho", "e", "cv", "x", "y", "z"],
    "molecular" := ["atom_id", "molecule-ID" + "atom_type", "x", "y", "z"],
    "peri" := ["atom_id", "atom_type", "volume density", "x", "y", "z"],
    "smd" := ["atom_id", "atom_type", "molecule volume", "mass", "kernel_radius", "contact_radius" + "x", "y", "z"],
    "sphere" := ["atom_id", "atom_type", "diameter", "density", "x", "y", "z"],
    "template" := ["atom_id", "molecule_ID" + "template_index", "template_atom", "atom_type", "x", "y", "z"],
    "tri" := ["atom_id", "molecule_ID", "atom_type", "triangleflag", "density", "x", "y", "z"],
    "wavepacket" := ["atom_id", "atom_type", "charge", "spin", "eradius", "etag", "cs_re", "cs_im", "x", "y", "z"]
  ]

  /**
    The joined literals leave "molecular", "smd" and "template" one column
    short of their look, each holding one run-together name; "smd" thereby
    has no "x" column at all.
   */
  lemma AtomStyleJoinedColumns()
    ensures |AtomStyle["molecular"]| == 5 && AtomStyle["molecular"][1] == "molecule-IDatom_type"
    ensures |AtomStyle["smd"]| == 8 && AtomStyle["smd"][5] == "contact_radiusx"
    ensures |AtomStyle["template"]| == 7 && AtomStyle["template"][1] == "molecule_IDtemplate_index"
    ensures forall s :: s in AtomStyle ==> "x" in AtomStyle[s] || s == "smd"
  {
  }

  /** The dimension of each atom data label, in declaration order. */
  const AtomUtypes: OrderedDict<string> := [("mass", "[mass]"), ("charge", "[charge]"), ("xyz", "[length]")]

  /** The atom data labels are "mass", "charge" and "xyz", each once, with mass, charge and length dimensions. */
  lemma AtomUtypesLabels()
    ensures Keys(AtomUtypes) == ["mass", "charge", "xyz"] && Distinct(Keys(AtomUtypes))
    ensures Get(AtomUtypes, "mass") == Some("[mass]")
    ensures Get(AtomUtypes, "charge") == Some("[charge]")
    ensures Get(AtomUtypes, "xyz") == Some("[length]")
  {
    GetAt(AtomUtypes, 0);
    GetAt(AtomUtypes, 1);
    GetAt(AtomUtypes, 2);
  }

  /** A value stored under `kwargs`: `None`, a boolean, or a map of units. */
  datatype KwValue = NoneValue | BoolValue(b: bool) | UnitsValue(units: map<string, string>)

  /** A value stored under `args`. */
  datatype ArgValue = IntArg(n: int) | StrArg(s: string)

  /** One section of the operation table as declared: `size` names a header key. */
  datatype Operation = Operation(
    size: string,
    dlFunc: string,
    dfCols: Option<seq<string>>,
    kwargs: Option<map<string, KwValue>>,
    callType: string,
    args: Option<map<string, ArgValue>>)

  /** One section after specialisation: `size` is a count and `kwargs` is always present. */
  datatype BuiltOperation = BuiltOperation(
    size: int,
    dlFunc: string,
    dfCols: Option<seq<string>>,
    kwargs: map<string, KwValue>,
    callType: string,
    args: Option<map<string, ArgValue>>)

  /** The data-file sections, in declaration order, with how each is loaded. */
  const OperationTable: OrderedDict<Operation> := [
    ("Atoms", Operation("atoms", "add_atoms",
                        Some(["atom_index", "molecule_index", "atom_type", "charge", "X", "Y", "Z"]),
                        Some(map["utype" := NoneValue, "by_value" := BoolValue(true)]), "single", None)),
    ("Bonds", Operation("bonds", "add_bonds", Some(["bond_index", "term_index", "atom1", "atom2"]),
                        None, "single", None)),
    ("Angles", Operation("angles", "add_angles", Some(["angle_index", "term_index", "atom1", "atom2", "atom3"]),
                         None, "single", None)),
    ("Dihedrals", Operation("dihedrals", "add_dihedrals",
                            Some(["dihedral_index", "term_index", "atom1", "atom2", "atom3", "atom4"]),
                            None, "single", None)),
    ("Impropers", Operation("impropers", "NYI", None, None, "single", None)),
    ("Masses", Operation("atom types", "NYI", None, Some(map["utype" := NoneValue]), "loop", None)),
    ("Pair Coeffs", Operation("atom types", "NYI", None, None, "parameter", None)),
    ("Bond Coeffs", Operation("bond types", "add_parameters", None, None, "parameter",
                              Some(map["order" := IntArg(2), "form_name" := StrArg("harmonic")]))),
    ("Angle Coeffs", Operation("angle types", "add_parameters", None, None, "parameter",
                               Some(map["order" := IntArg(3), "form_name" := StrArg("harmonic")]))),
    ("Dihedral Coeffs", Operation("dihedral types", "NYI", None, None, "parameter", None)),
    ("Improper Coeffs", Operation("improper types", "NYI", None, None, "parameter", None))
  ]

  /** The loader names whose sections receive the atom unit map. */
  const AtomLoaders: seq<string> := ["add_atom_parameters", "add_atoms"]

  // ---------------------------------------------------------------------
  // build_atom_units
  // ---------------------------------------------------------------------

  /** Whether `unitValues` defines the dimension of every label in `dims`. */
  predicate DefinesDimensions(dims: OrderedDict<string>, unitValues: map<string, string>) {
    forall i :: 0 <= i < |dims| ==> dims[i].1 in unitValues
  }

  /**
    The position of the first label of `dims` whose dimension `unitValues`
    does not define, or `|dims|` when it defines them all.
   */
  function FirstMissing(dims: OrderedDict<string>, unitValues: map<string, string>): (n: nat)
    ensures n <= |dims|
    ensures forall j :: 0 <= j < n ==> dims[j].1 in unitValues
    ensures n < |dims| ==> dims[n].1 !in unitValues
    ensures n == |dims| <==> DefinesDimensions(dims, unitValues)
  {
    if dims == [] then 0
    else if dims[0].1 !in unitValues then 0
    else 1 + FirstMissing(dims[1..], unitValues)
  }

  /**
    The unit of each label of `dims`, filled in label by label as the loop of
    `build_atom_units` does: a later label with the same name overwrites.
   */
  function LabelUnits(dims: OrderedDict<string>, unitValues: map<string, string>): (m: map<string, string>)
    requires DefinesDimensions(dims, unitValues)
    ensures m.Keys == set i | 0 <= i < |dims| :: dims[i].0
    ensures Distinct(Keys(dims)) ==> forall i :: 0 <= i < |dims| ==> m[dims[i].0] == unitValues[dims[i].1]
  {
    if dims == [] then map[]
    else
      var last := dims[|dims| - 1];
      var m := LabelUnits(dims[..|dims| - 1], unitValues)[last.0 := unitValues[last.1]];
      assert forall i :: 0 <= i < |dims| - 1 ==> dims[..|dims| - 1][i] == dims[i];
      m
  }

  /** Whether a dimension map defines the dimension of every atom data label. */
  predicate HasAtomDimensions(unitValues: map<string, string>)
    ensures HasAtomDimensions(unitValues) <==>
              "[mass]" in unitValues && "[charge]" in unitValues && "[length]" in unitValues
  {
    assert AtomUtypes[0].1 == "[mass]" && AtomUtypes[1].1 == "[charge]" && AtomUtypes[2].1 == "[length]";
    DefinesDimensions(AtomUtypes, unitValues)
  }

  /**
    The unit of each atom data label under the dimension map `unitValues`;
    the first label whose dimension is missing raises a `KeyError` naming it.
   */
  function AtomUnitsFrom(unitValues: map<string, string>): (r: Result<map<string, string>, KeyError>)
    ensures r.Success? <==> HasAtomDimensions(unitValues)
    ensures r.Failure? ==> r.error.key !in unitValues && r.error.key in {"[mass]", "[charge]", "[length]"}
  {
    var n := FirstMissing(AtomUtypes, unitValues);
    if n < |AtomUtypes| then Failure(KeyError(AtomUtypes[n].1))
    else Success(LabelUnits(AtomUtypes, unitValues))
  }

  /**
    Atom units succeed exactly when the three dimensions are defined; they
    then give every label of `_atom_utypes`, and no other key, the unit of
    its dimension; otherwise the error names a dimension that is missing.
   */
  lemma AtomUnitsFromSpec(unitValues: map<string, string>)
    ensures AtomUnitsFrom(unitValues).Success? <==> HasAtomDimensions(unitValues)
    ensures AtomUnitsFrom(unitValues).Success? ==>
              AtomUnitsFrom(unitValues).value.Keys == set i | 0 <= i < |AtomUtypes| :: AtomUtypes[i].0
    ensures AtomUnitsFrom(unitValues).Success? ==>
              AtomUnitsFrom(unitValues).value == map["mass" := unitValues["[mass]"],
                                                     "charge" := unitValues["[charge]"],
                                                     "xyz" := unitValues["[length]"]]
    ensures AtomUnitsFrom(unitValues).Failure? ==>
              && AtomUnitsFrom(unitValues).error.key in {"[mass]", "[charge]", "[length]"}
              && AtomUnitsFrom(unitValues).error.key !in unitValues
    ensures "[mass]" !in unitValues ==> AtomUnitsFrom(unitValues) == Failure(KeyError("[mass]"))
  {
    var n := FirstMissing(AtomUtypes, unitValues);
    if n == |AtomUtypes| {
      var m := LabelUnits(AtomUtypes, unitValues);
      assert Distinct(Keys(AtomUtypes));
      assert m.Keys == {"mass", "charge", "xyz"} by {
        assert AtomUtypes[0].0 == "mass" && AtomUtypes[1].0 == "charge" && AtomUtypes[2].0 == "xyz";
      }
    }
  }

  /** `build_atom_units`: the units of `unitType`, or a `KeyError`. */
  function AtomUnits(unitType: string): (r: Result<map<string, string>, KeyError>)
    ensures Get(UnitsStyle, unitType).None? ==> r == Failure(KeyError(unitType))
  {
    match Get(UnitsStyle, unitType)
    case None => Failure(KeyError(unitType))
    case Some(unitValues) => AtomUnitsFrom(unitValues)
  }

  /** The loop of `build_atom_units`: look up each label's dimension in order. */
  method CollectAtomUnits(unitValues: map<string, string>) returns (r: Result<map<string, string>, KeyError>)
    ensures r == AtomUnitsFrom(unitValues)
  {
    var ret: map<string, string> := map[];
    for n := 0 to |AtomUtypes|
      invariant DefinesDimensions(AtomUtypes[..n], unitValues)
      invariant ret == LabelUnits(AtomUtypes[..n], unitValues)
    {
      var (k, v) := AtomUtypes[n];
      if v !in unitValues {
        assert FirstMissing(AtomUtypes, unitValues) == n;
        return Failure(KeyError(v));
      }
      assert AtomUtypes[..n + 1][..n] == AtomUtypes[..n];
      ret := ret[k := unitValues[v]];
    }
    assert AtomUtypes[..|AtomUtypes|] == AtomUtypes;
    return Success(ret);
  }

  /** `build_atom_units`: look up the style, then fill in the labels. */
  method BuildAtomUnits(unitType: string) returns (r: Result<map<string, string>, KeyError>)
    ensures r == AtomUnits(unitType)
  {
    var unitValues := Get(UnitsStyle, unitType);
    if unitValues.None? {
      return Failure(KeyError(unitType));
    }
    r := CollectAtomUnits(unitValues.value);
  }

  /** The unit styles, in declaration order, with the dimension map of each. */
  lemma UnitsStyleEntries()
    ensures |UnitsStyle| == 8
    ensures && UnitsStyle[0] == ("lj", LjUnits) && UnitsStyle[1] == ("real", RealUnits)
            && UnitsStyle[2] == ("metal", MetalUnits) && UnitsStyle[3] == ("si", SiUnits)
            && UnitsStyle[4] == ("cgs", CgsUnits) && UnitsStyle[5] == ("electron", ElectronUnits)
            && UnitsStyle[6] == ("micro", MicroUnits) && UnitsStyle[7] == ("nano", NanoUnits)
  {
  }

  /** The "real", "metal" and "si" styles define mass, charge and length. */
  lemma EarlyStylesDefineAtomDimensions()
    ensures HasAtomDimensions(RealUnits) && HasAtomDimensions(MetalUnits) && HasAtomDimensions(SiUnits)
  {
  }

  /** The "cgs", "electron", "micro" and "nano" styles define mass, charge and length. */
  lemma LateStylesDefineAtomDimensions()
    ensures HasAtomDimensions(CgsUnits) && HasAtomDimensions(ElectronUnits)
    ensures HasAtomDimensions(MicroUnits) && HasAtomDimensions(NanoUnits)
  {
    assert "[mass]" in CgsUnits && "[charge]" in CgsUnits && "[length]" in CgsUnits;
    assert "[mass]" in ElectronUnits && "[charge]" in ElectronUnits && "[length]" in ElectronUnits;
    assert "[mass]" in MicroUnits && "[charge]" in MicroUnits && "[length]" in MicroUnits;
    assert "[mass]" in NanoUnits && "[charge]" in NanoUnits && "[length]" in NanoUnits;
  }

  /** Every style after "lj" defines the three dimensions the atom labels need. */
  lemma StylesDefineAtomDimensions()
    ensures forall i :: 1 <= i < |UnitsStyle| ==> HasAtomDimensions(UnitsStyle[i].1)
  {
    UnitsStyleEntries();
    EarlyStylesDefineAtomDimensions();
    LateStylesDefineAtomDimensions();
  }

  /**
    Exactly the styles other than "lj" give atom units; "lj" fails on
    "[mass]" and a name that is no style fails on itself.
   */
  lemma AtomUnitsDefinedFor(unitType: string)
    ensures AtomUnits(unitType).Success? <==> unitType in Keys(UnitsStyle) && unitType != "lj"
    ensures AtomUnits("lj") == Failure(KeyError("[mass]"))
    ensures unitType !in Keys(UnitsStyle) ==> AtomUnits(unitType) == Failure(KeyError(unitType))
  {
    UnitsStyleEntries();
    GetAt(UnitsStyle, 0);
    AtomUnitsFromSpec(LjUnits);
    var n := IndexOf(UnitsStyle, unitType);
    if n < |UnitsStyle| {
      AtomUnitsFromSpec(UnitsStyle[n].1);
      if n != 0 {
        StylesDefineAtomDimensions();
      }
    }
  }

  /** The atom units the "real" dimension map gives. */
  lemma AtomUnitsFromReal()
    ensures AtomUnitsFrom(RealUnits) == Success(map["mass" := "(gram mol ** -1)", "charge" := "e", "xyz" := "angstrom"])
  {
    AtomUnitsFromSpec(RealUnits);
  }

  /** The atom units of the "real" style. */
  lemma AtomUnitsReal()
    ensures AtomUnits("real") == Success(map["mass" := "(gram mol ** -1)", "charge" := "e", "xyz" := "angstrom"])
  {
    UnitsStyleEntries();
    GetAt(UnitsStyle, 1);
    AtomUnitsFromReal();
  }

  // ---------------------------------------------------------------------
  // build_valid_category_list
  // ---------------------------------------------------------------------

  /** The section names of the operation table, in declaration order. */
  function ValidCategoryList(): (r: seq<string>)
    ensures r == ["Atoms", "Bonds", "Angles", "Dihedrals", "Impropers", "Masses", "Pair Coeffs",
                  "Bond Coeffs", "Angle Coeffs", "Dihedral Coeffs", "Improper Coeffs"]
    ensures Distinct(r)
  {
    Keys(OperationTable)
  }

  // ---------------------------------------------------------------------
  // build_operation_table
  // ---------------------------------------------------------------------

  /** Whether a section's loader receives the atom unit map. */
  predicate LoadsAtoms(op: Operation) {
    op.dlFunc in AtomLoaders
  }

  /** The count a header gives a size key; a key the header lacks counts 0. */
  function SizeCount(key: string, sizes: map<string, int>): (n: int) {
    if key in sizes then sizes[key] else 0
  }

  /**
    One section specialised to the atom units `aunits` and the header counts
    `sizes`. A section that receives atom units but has no `kwargs` raises.
   */
  function BuildEntry(op: Operation, aunits: map<string, string>, sizes: map<string, int>)
    : (r: Result<BuiltOperation, KeyError>)
    ensures r.Success? <==> !(LoadsAtoms(op) && op.kwargs.None?)
    ensures r.Failure? ==> r.error == KeyError("kwargs")
    ensures r.Success? ==>
              && r.value.size == SizeCount(op.size, sizes)
              && r.value.dlFunc == op.dlFunc
              && r.value.dfCols == op.dfCols
              && r.value.callType == op.callType
              && r.value.args == op.args
    ensures r.Success? && LoadsAtoms(op) ==>
              && "utype" in r.value.kwargs
              && r.value.kwargs["utype"] == UnitsValue(aunits)
              && r.value.kwargs.Keys == op.kwargs.value.Keys + {"utype"}
              && forall k :: k in op.kwargs.value && k != "utype" ==> r.value.kwargs[k] == op.kwargs.value[k]
    ensures !LoadsAtoms(op) ==> r.value.kwargs == if op.kwargs.Some? then op.kwargs.value else map[]
  {
    if LoadsAtoms(op) && op.kwargs.None? then Failure(KeyError("kwargs"))
    else
      var kwargs := if LoadsAtoms(op) then op.kwargs.value["utype" := UnitsValue(aunits)] else op.kwargs.GetOr(map[]);
      Success(BuiltOperation(SizeCount(op.size, sizes), op.dlFunc, op.dfCols, kwargs, op.callType, op.args))
  }

  /**
    Every section of `table` specialised, in order and under the same names;
    a section that cannot be specialised makes the whole table raise.
   */
  function BuildTable(table: OrderedDict<Operation>, aunits: map<string, string>, sizes: map<string, int>)
    : (r: Result<OrderedDict<BuiltOperation>, KeyError>)
    ensures r.Success? <==>
              forall i :: 0 <= i < |table| && LoadsAtoms(table[i].1) ==> table[i].1.kwargs.Some?
    ensures r.Failure? ==> r.error == KeyError("kwargs")
    ensures r.Success? ==> Keys(r.value) == Keys(table)
    ensures r.Success? ==>
              forall i :: 0 <= i < |table| ==> r.value[i].1 == BuildEntry(table[i].1, aunits, sizes).value
  {
    if exists i :: 0 <= i < |table| && BuildEntry(table[i].1, aunits, sizes).Failure? then
      Failure(KeyError("kwargs"))
    else
      Success(seq(|table|, i requires 0 <= i < |table| => (table[i].0, BuildEntry(table[i].1, aunits, sizes).value)))
  }

  /** The loop of `build_operation_table` over the copied table. */
  method RewriteOperations(table: OrderedDict<Operation>, aunits: map<string, string>, sizes: map<string, int>)
    returns (r: Result<OrderedDict<BuiltOperation>, KeyError>)
    ensures r == BuildTable(table, aunits, sizes)
  {
    var ret: OrderedDict<BuiltOperation> := [];
    for i := 0 to |table|
      invariant forall j :: 0 <= j < i ==> BuildEntry(table[j].1, aunits, sizes).Success?
      invariant |ret| == i
      invariant forall j :: 0 <= j < i ==> ret[j] == (table[j].0, BuildEntry(table[j].1, aunits, sizes).value)
    {
      var (name, v) := table[i];
      var kwargs := v.kwargs;
      // Supply the atom unit types
      if v.dlFunc in AtomLoaders {
        if kwargs.None? {
          assert BuildEntry(table[i].1, aunits, sizes).Failure?;
          return Failure(KeyError("kwargs"));
        }
        kwargs := Some(kwargs.value["utype" := UnitsValue(aunits)]);
      }
      // Build the size from the header, defaulting to zero
      var size := SizeCount(v.size, sizes);
      // Blank kwargs if needed
      if kwargs.None? {
        kwargs := Some(map[]);
      }
      ret := ret + [(name, BuiltOperation(size, v.dlFunc, v.dfCols, kwargs.value, v.callType, v.args))];
    }
    assert ret == BuildTable(table, aunits, sizes).value;
    return Success(ret);
  }

  /** The operation table specialised to `unitType` and the header counts `sizes`. */
  function OperationTableFor(unitType: string, sizes: map<string, int>)
    : (r: Result<OrderedDict<BuiltOperation>, KeyError>)
    ensures r.Failure? <==> AtomUnits(unitType).Failure?
    ensures r.Failure? ==> r.error == AtomUnits(unitType).error
  {
    match AtomUnits(unitType)
    case Failure(e) => Failure(e)
    case Success(aunits) =>
      BuildOperationTableSucceeds(aunits, sizes);
      BuildTable(OperationTable, aunits, sizes)
  }

  /** `build_operation_table`: atom units first, then the loop over the copy. */
  method BuildOperationTable(unitType: string, sizes: map<string, int>)
    returns (r: Result<OrderedDict<BuiltOperation>, KeyError>)
    ensures r == OperationTableFor(unitType, sizes)
  {
    var aunits := BuildAtomUnits(unitType);
    if aunits.Failure? {
      return Failure(aunits.error);
    }
    r := RewriteOperations(OperationTable, aunits.value, sizes);
  }

  /** Every declared section that receives atom units has `kwargs` to receive them. */
  lemma OperationTableLoadersHaveKwargs()
    ensures forall i :: 0 <= i < |OperationTable| && LoadsAtoms(OperationTable[i].1) ==>
              i == 0 && OperationTable[i].1.kwargs.Some?
  {
  }

  /** Specialising the declared table never fails, whatever the atom units and sizes. */
  lemma BuildOperationTableSucceeds(aunits: map<string, string>, sizes: map<string, int>)
    ensures BuildTable(OperationTable, aunits, sizes).Success?
    ensures Keys(BuildTable(OperationTable, aunits, sizes).value) == ValidCategoryList()
  {
    OperationTableLoadersHaveKwargs();
    var t := BuildTable(OperationTable, aunits, sizes).value;
    assert Keys(t) == Keys(OperationTable);
  }

  /**
    The specialised table fails exactly when the atom units do, and then with
    their error; otherwise it has the sections of the declared table, in order.
   */
  lemma OperationTableForShape(unitType: string, sizes: map<string, int>)
    ensures OperationTableFor(unitType, sizes).Success? <==> AtomUnits(unitType).Success?
    ensures AtomUnits(unitType).Failure? ==> OperationTableFor(unitType, sizes) == Failure(AtomUnits(unitType).error)
    ensures OperationTableFor(unitType, sizes).Success? ==>
              Keys(OperationTableFor(unitType, sizes).value) == ValidCategoryList()
  {
    if AtomUnits(unitType).Success? {
      BuildOperationTableSucceeds(AtomUnits(unitType).value, sizes);
    }
  }

  /**
    Each section's size is the header count of its size key, 0 when the
    header lacks it; "Masses" and "Pair Coeffs" both count "atom types".
   */
  lemma OperationTableSizes(aunits: map<string, string>, sizes: map<string, int>)
    ensures BuildTable(OperationTable, aunits, sizes).Success?
    ensures var t := BuildTable(OperationTable, aunits, sizes).value;
            && (forall i :: 0 <= i < |t| ==> t[i].1.size == SizeCount(OperationTable[i].1.size, sizes))
            && t[5].0 == "Masses" && t[6].0 == "Pair Coeffs"
            && t[5].1.size == t[6].1.size == SizeCount("atom types", sizes)
  {
    BuildOperationTableSucceeds(aunits, sizes);
    var t := BuildTable(OperationTable, aunits, sizes).value;
    assert t[5] == (OperationTable[5].0, BuildEntry(OperationTable[5].1, aunits, sizes).value);
    assert t[6] == (OperationTable[6].0, BuildEntry(OperationTable[6].1, aunits, sizes).value);
  }

  /** "Atoms" receives the atom unit map and keeps its `by_value`. */
  lemma OperationTableAtomsKwargs(aunits: map<string, string>, sizes: map<string, int>)
    ensures BuildTable(OperationTable, aunits, sizes).Success?
    ensures var t := BuildTable(OperationTable, aunits, sizes).value;
            && t[0].0 == "Atoms"
            && t[0].1.kwargs == map["utype" := UnitsValue(aunits), "by_value" := BoolValue(true)]
  {
    BuildOperationTableSucceeds(aunits, sizes);
    var t := BuildTable(OperationTable, aunits, sizes).value;
    assert t[0] == (OperationTable[0].0, BuildEntry(OperationTable[0].1, aunits, sizes).value);
  }

  /**
    "Masses" keeps its `utype` of `None`, since its loader is not an atom
    loader; every other section gets empty `kwargs`.
   */
  lemma OperationTableOtherKwargs(aunits: map<string, string>, sizes: map<string, int>)
    ensures BuildTable(OperationTable, aunits, sizes).Success?
    ensures var t := BuildTable(OperationTable, aunits, sizes).value;
            && t[5].0 == "Masses"
            && t[5].1.kwargs == map["utype" := NoneValue]
            && (forall i :: 0 < i < |t| && i != 5 ==> t[i].1.kwargs == map[])
  {
    BuildOperationTableSucceeds(aunits, sizes);
    var t := BuildTable(OperationTable, aunits, sizes).value;
    assert t[5] == (OperationTable[5].0, BuildEntry(OperationTable[5].1, aunits, sizes).value);
    forall i | 0 < i < |t| && i != 5
      ensures t[i].1.kwargs == map[]
    {
      assert t[i] == (OperationTable[i].0, BuildEntry(OperationTable[i].1, aunits, sizes).value);
    }
  }

  /**
    Loaders, columns, call types and arguments are the declared ones for
    every section.
   */
  lemma OperationTableKeepsFields(aunits: map<string, string>, sizes: map<string, int>)
    ensures BuildTable(OperationTable, aunits, sizes).Success?
    ensures var t := BuildTable(OperationTable, aunits, sizes).value;
            forall i :: 0 <= i < |t| ==>
              && t[i].0 == OperationTable[i].0
              && t[i].1.dlFunc == OperationTable[i].1.dlFunc
              && t[i].1.dfCols == OperationTable[i].1.dfCols
              && t[i].1.callType == OperationTable[i].1.callType
              && t[i].1.args == OperationTable[i].1.args
  {
    BuildOperationTableSucceeds(aunits, sizes);
  }

  /** Every section's size key is one of the header size keys. */
  lemma OperationTableSizesAreHeaderKeys()
    ensures forall i :: 0 <= i < |OperationTable| ==> OperationTable[i].1.size in SizeKeys
  {
  }

  // ---------------------------------------------------------------------
  // build_term_table
  // ---------------------------------------------------------------------

  /**
    A force-field term: the unit placeholder of each parameter, the concrete
    units once built, and every other field of the term.
   */
  datatype Term<F> = Term(units: map<string, string>, utype: Option<map<string, string>>, fields: F)

  /** Term data: for each term order (2 for bonds, 3 for angles, ...), the terms by name. */
  type TermData<F> = map<nat, map<string, Term<F>>>

  /** `eex.units.convert_contexts`: rewrites a unit expression into a style's units. */
  type ConvertContexts = (string, map<string, string>) -> string

  /** The concrete unit of each parameter of `units` under the style `ustyle`. */
  function ParameterUnits(units: map<string, string>, ustyle: map<string, string>, convert: ConvertContexts)
    : (utype: map<string, string>)
    ensures utype.Keys == units.Keys
  {
    map p | p in units :: convert(units[p], ustyle)
  }

  /** A term with its concrete units attached. */
  function Annotate<F>(t: Term<F>, ustyle: map<string, string>, convert: ConvertContexts): (r: Term<F>)
    ensures r.units == t.units && r.fields == t.fields
    ensures r.utype.Some? && r.utype.value.Keys == t.units.Keys
  {
    t.(utype := Some(ParameterUnits(t.units, ustyle, convert)))
  }

  /** Every term of one order with its concrete units under `ustyle` attached. */
  function AnnotatedTerms<F>(terms: map<string, Term<F>>, ustyle: map<string, string>, convert: ConvertContexts)
    : (r: map<string, Term<F>>)
    ensures r.Keys == terms.Keys
  {
    map k | k in terms :: Annotate(terms[k], ustyle, convert)
  }

  /** Every term of every order with its concrete units under `ustyle` attached. */
  function AnnotatedTermData<F>(termData: TermData<F>, ustyle: map<string, string>, convert: ConvertContexts)
    : (r: TermData<F>)
    ensures r.Keys == termData.Keys
  {
    map o | o in termData :: AnnotatedTerms(termData[o], ustyle, convert)
  }

  /** `build_term_table`: the term data annotated for `unitType`; an unknown style raises. */
  function TermTable<F>(unitType: string, termData: TermData<F>, convert: ConvertContexts)
    : (r: Result<TermData<F>, KeyError>)
    ensures r.Success? <==> unitType in Keys(UnitsStyle)
    ensures r.Failure? ==> r.error == KeyError(unitType)
    ensures r.Success? ==> r.value.Keys == termData.Keys
  {
    match Get(UnitsStyle, unitType)
    case None => Failure(KeyError(unitType))
    case Some(ustyle) => Success(AnnotatedTermData(termData, ustyle, convert))
  }

  /** The innermost loop: convert each parameter's unit placeholder. */
  method ConvertParameterUnits(units: map<string, string>, ustyle: map<string, string>, convert: ConvertContexts)
    returns (utype: map<string, string>)
    ensures utype == ParameterUnits(units, ustyle, convert)
  {
    utype := map[];
    var todo := units.Keys;
    while todo != {}
      invariant todo <= units.Keys
      invariant utype.Keys == units.Keys - todo
      invariant forall p :: p in utype ==> utype[p] == convert(units[p], ustyle)
      decreases todo
    {
      var pk :| pk in todo;
      utype := utype[pk := convert(units[pk], ustyle)];
      todo := todo - {pk};
    }
  }

  /** The middle loop: attach `utype` to every term of one order. */
  method AnnotateTerms<F>(terms: map<string, Term<F>>, ustyle: map<string, string>, convert: ConvertContexts)
    returns (ret: map<string, Term<F>>)
    ensures ret == AnnotatedTerms(terms, ustyle, convert)
  {
    ret := terms;
    var todo := terms.Keys;
    while todo != {}
      invariant todo <= terms.Keys
      invariant ret.Keys == terms.Keys
      invariant forall k :: k in terms && k in todo ==> ret[k] == terms[k]
      invariant forall k :: k in terms && k !in todo ==> ret[k] == Annotate(terms[k], ustyle, convert)
      decreases todo
    {
      var k :| k in todo;
      var v := ret[k];
      var utype := ConvertParameterUnits(v.units, ustyle, convert);
      ret := ret[k := v.(utype := Some(utype))];
      todo := todo - {k};
    }
  }

  /** The outer loop: annotate the terms of every order of the copied data. */
  method AnnotateTermData<F>(termData: TermData<F>, ustyle: map<string, string>, convert: ConvertContexts)
    returns (ret: TermData<F>)
    ensures ret == AnnotatedTermData(termData, ustyle, convert)
  {
    ret := termData;
    var todo := termData.Keys;
    while todo != {}
      invariant todo <= termData.Keys
      invariant ret.Keys == termData.Keys
      invariant forall o :: o in termData && o in todo ==> ret[o] == termData[o]
      invariant forall o :: o in termData && o !in todo ==> ret[o] == AnnotatedTerms(termData[o], ustyle, convert)
      decreases todo
    {
      var ok :| ok in todo;
      var ov := AnnotateTerms(ret[ok], ustyle, convert);
      ret := ret[ok := ov];
      todo := todo - {ok};
    }
  }

  /** `build_term_table`: look up the style, then annotate a copy of the term data. */
  method BuildTermTable<F>(unitType: string, termData: TermData<F>, convert: ConvertContexts)
    returns (r: Result<TermData<F>, KeyError>)
    ensures r == TermTable(unitType, termData, convert)
  {
    var ustyle := Get(UnitsStyle, unitType);
    if ustyle.None? {
      return Failure(KeyError(unitType));
    }
    var ret := AnnotateTermData(termData, ustyle.value, convert);
    return Success(ret);
  }

  /**
    The term table keeps every order and every term name; each term keeps its
    units and other fields, and its new `utype` gives exactly the parameters
    of its `units` the style's concrete unit; an unknown style raises.
   */
  lemma TermTableSpec<F>(unitType: string, termData: TermData<F>, convert: ConvertContexts)
    ensures TermTable(unitType, termData, convert).Success? <==> unitType in Keys(UnitsStyle)
    ensures unitType !in Keys(UnitsStyle) ==> TermTable(unitType, termData, convert) == Failure(KeyError(unitType))
    ensures TermTable(unitType, termData, convert).Success? ==>
              var r := TermTable(unitType, termData, convert).value;
              && r.Keys == termData.Keys
              && forall o :: o in termData ==>
                   && r[o].Keys == termData[o].Keys
                   && forall k :: k in termData[o] ==>
                        && r[o][k].units == termData[o][k].units
                        && r[o][k].fields == termData[o][k].fields
                        && r[o][k].utype.Some?
                        && r[o][k].utype.value.Keys == termData[o][k].units.Keys
                        && forall p :: p in termData[o][k].units ==>
                             r[o][k].utype.value[p] == convert(termData[o][k].units[p], Get(UnitsStyle, unitType).value)
  {
  }

  /**
    Annotating already annotated term data changes nothing. This is a fact
    about the parameterised form of the model only: the source's
    `build_term_table` always starts from the module's own term data.
   */
  lemma AnnotatedTermDataIdempotent<F>(termData: TermData<F>, ustyle: map<string, string>, convert: ConvertContexts)
    ensures AnnotatedTermData(AnnotatedTermData(termData, ustyle, convert), ustyle, convert)
            == AnnotatedTermData(termData, ustyle, convert)
  {
    var once: TermData<F> := AnnotatedTermData(termData, ustyle, convert);
    var twice: TermData<F> := AnnotatedTermData(once, ustyle, convert);
    forall o: nat | o in once
      ensures twice[o] == once[o]
    {
      forall k: string | k in once[o]
        ensures twice[o][k] == once[o][k]
      {
        assert once[o][k] == Annotate(termData[o][k], ustyle, convert);
      }
      assert twice[o].Keys == once[o].Keys;
    }
    assert twice.Keys == once.Keys;
  }

  /**
    Building the term table from an already built one changes nothing. Like
    `AnnotatedTermDataIdempotent`, this holds of the parameterised model; the
    source has no way to pass a built table back in.
   */
  lemma TermTableIdempotent<F>(unitType: string, termData: TermData<F>, convert: ConvertContexts)
    requires unitType in Keys(UnitsStyle)
    ensures TermTable(unitType, TermTable(unitType, termData, convert).value, convert) == TermTable(unitType, termData, convert)
  {
    AnnotatedTermDataIdempotent(termData, Get(UnitsStyle, unitType).value, convert);
  }
}
