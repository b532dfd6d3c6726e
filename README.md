# EEX LAMMPS metadata and identity form converters, in Dafny

This project models two parts of EEX, a system that translates molecular
simulation data between engine formats:

- **The LAMMPS metadata helper** (`eex/translators/lammps/lammps_metadata.py`),
  module `LammpsMetadata` in `lammps_metadata.dfy`. It holds three constant
  tables:
  - the LAMMPS unit styles (`units_style`): for each style, the unit of each
    abstract dimension such as `[mass]` or `[energy]`;
  - the dimension of each atom data label (`_atom_utypes`);
  - the operation table (`_operation_table`): for each data-file section, its
    header size key, loader name, data-frame columns, keyword arguments, call
    type and extra arguments.

  It also holds the builders that specialise these tables:
  - `build_atom_units` gives each atom label the unit of one style;
  - `build_valid_category_list` lists the section names in declaration order;
  - `build_operation_table` fills in atom units, header counts and empty
    keyword maps on a copy of the operation table;
  - `build_term_table` attaches to every force-field term the concrete unit of
    each of its parameters.
- **The identity form converters** (`eex/form_converters/bond_converters.py`
  and `eex/form_converters/angle_converters.py`), modules `BondConverters` and
  `AngleConverters`. Each is a coefficient converter registered for one term
  order: 2 for bonds, 3 for angles. Each returns its coefficients unchanged.

How the model maps the Python code:

- A Python dict whose order is observable is an `OrderedDict<V>`, a sequence of
  (key, value) pairs. The unit-style table, the atom labels and the operation
  table are of this kind, because `list(_operation_table)` returns the keys in
  declaration order. Other dicts are Dafny `map`s.
- A Python `KeyError` is the `Failure(KeyError(key))` case of a `Result`. The
  failing inputs stay in the domain, so no builder has a `requires`.
- The loops of the builders are methods, each proved equal to a specification
  function. The properties the source promises are lemmas about those functions.
- `copy.deepcopy` needs no counterpart: Dafny values are immutable, so the
  declared `OperationTable` and the caller's term data cannot change.
- The `utype` parameter of `build_term_table` is reassigned inside its inner
  loop. The style's unit map was read before the loop, so the reassignment has
  no effect, and the model reads the style once.
- An unknown unit style raises a plain `KeyError` (lammps_metadata.py:250 and
  :286), and the model does the same.
- `_atom_style` is kept as data, `AtomStyle`, with Python's joining of adjacent
  string literals. The "molecular", "smd" and "template" entries therefore each
  have one column fewer than they appear to have.

## Model

| member | source | states |
|---|---|---|
| `LammpsMetadata.Get` | eex/translators/lammps/lammps_metadata.py:250 | a dict lookup fails exactly when the key is not among the dict's keys |
| `LammpsMetadata.AtomStyleJoinedColumns` | eex/translators/lammps/lammps_metadata.py:145-152 | adjacent literals join: "molecular" has 5 columns, "smd" 8 with no "x", "template" 7, each with one joined column name |
| `LammpsMetadata.AtomUtypesLabels` | eex/translators/lammps/lammps_metadata.py:159 | the atom data labels are "mass", "charge" and "xyz", each once, with dimensions [mass], [charge] and [length] |
| `LammpsMetadata.FirstMissing` | eex/translators/lammps/lammps_metadata.py:251-252 | the position of the first atom label whose dimension the style lacks, i.e. where the loop raises; the label count exactly when every dimension is defined |
| `LammpsMetadata.LabelUnits` | eex/translators/lammps/lammps_metadata.py:251-252 | the filled dict has exactly the labels as keys; with distinct labels, each label maps to the unit of its dimension |
| `LammpsMetadata.AtomUnitsFromSpec` | eex/translators/lammps/lammps_metadata.py:247-253 | atom units succeed iff the style defines [mass], [charge] and [length]; the result has exactly the keys of `_atom_utypes`, each mapped to its dimension's unit; otherwise the KeyError names a missing dimension, [mass] first |
| `LammpsMetadata.AtomUnitsFrom` | eex/translators/lammps/lammps_metadata.py:251-253 | the label loop's outcome: it succeeds iff the style defines the dimension of every atom label; a raised KeyError names an atom dimension the style lacks |
| `LammpsMetadata.AtomUnits` | eex/translators/lammps/lammps_metadata.py:250 | a name that is not a unit style raises a KeyError naming it |
| `LammpsMetadata.CollectAtomUnits` | eex/translators/lammps/lammps_metadata.py:251-253 | the label loop returns the specified atom-unit map, or the KeyError of the first label whose dimension is missing |
| `LammpsMetadata.BuildAtomUnits` | eex/translators/lammps/lammps_metadata.py:247-253 | `build_atom_units` equals its specification `AtomUnits` for every style name |
| `LammpsMetadata.UnitsStyleEntries` | eex/translators/lammps/lammps_metadata.py:16-126 | the eight unit styles in declaration order, "lj" first |
| `LammpsMetadata.StylesDefineAtomDimensions` | eex/translators/lammps/lammps_metadata.py:18-125 | every style other than "lj" defines mass, charge and length |
| `LammpsMetadata.AtomUnitsDefinedFor` | eex/translators/lammps/lammps_metadata.py:16-17 | atom units exist iff the style is declared and is not "lj"; "lj" raises KeyError("[mass]"); an unknown name raises a KeyError naming itself |
| `LammpsMetadata.AtomUnitsReal` | eex/translators/lammps/lammps_metadata.py:18-29 | for "real": mass "(gram mol ** -1)", charge "e", xyz "angstrom" |
| `LammpsMetadata.ValidCategoryList` | eex/translators/lammps/lammps_metadata.py:256-257 | the 11 section names from "Atoms" to "Improper Coeffs" in declaration order, none repeated |
| `LammpsMetadata.BuildEntry` | eex/translators/lammps/lammps_metadata.py:266-280 | one section's rewrite: the size is the header count or 0; an atom loader gets `utype` set to the atom units and keeps its other kwargs, or raises KeyError("kwargs") if it has none; other sections keep their kwargs or get `{}`; loader, columns, call type and args are unchanged |
| `LammpsMetadata.BuildTable` | eex/translators/lammps/lammps_metadata.py:266-282 | the rewritten table raises, with KeyError("kwargs"), iff some atom-loading section has no kwargs; otherwise it has the same section names in the same order, each section rewritten as `BuildEntry` states |
| `LammpsMetadata.RewriteOperations` | eex/translators/lammps/lammps_metadata.py:266-282 | the loop over the copied table yields every section rewritten, in order and under its own name |
| `LammpsMetadata.OperationTableFor` | eex/translators/lammps/lammps_metadata.py:260-282 | `build_operation_table` raises iff `build_atom_units` raises, and then with the same error; the table rewrite itself never raises |
| `LammpsMetadata.BuildOperationTable` | eex/translators/lammps/lammps_metadata.py:260-282 | `build_operation_table` equals its specification `OperationTableFor`: atom units first, then the rewritten table |
| `LammpsMetadata.OperationTableLoadersHaveKwargs` | eex/translators/lammps/lammps_metadata.py:161-242 | only "Atoms" has an atom loader, and it declares kwargs |
| `LammpsMetadata.BuildOperationTableSucceeds` | eex/translators/lammps/lammps_metadata.py:263-282 | rewriting the declared table never raises, and the result has the same section names in the same order |
| `LammpsMetadata.OperationTableForShape` | eex/translators/lammps/lammps_metadata.py:260-266 | the builder raises iff the atom units raise, with their error; otherwise it keeps the section names |
| `LammpsMetadata.OperationTableSizes` | eex/translators/lammps/lammps_metadata.py:273-276 | each section's size is the header count of its size key, or 0; "Masses" and "Pair Coeffs" both count "atom types" |
| `LammpsMetadata.OperationTableAtomsKwargs` | eex/translators/lammps/lammps_metadata.py:266-270 | "Atoms" gets kwargs `{utype: atom units, by_value: True}` |
| `LammpsMetadata.OperationTableOtherKwargs` | eex/translators/lammps/lammps_metadata.py:278-280 | "Masses" keeps `utype` None; every other section but "Atoms" gets empty kwargs |
| `LammpsMetadata.OperationTableKeepsFields` | eex/translators/lammps/lammps_metadata.py:161-242 | every section keeps its name, loader, columns, call type and args |
| `LammpsMetadata.OperationTableSizesAreHeaderKeys` | eex/translators/lammps/lammps_metadata.py:10-13 | every section's size key is one of the header size keys |
| `LammpsMetadata.ConvertParameterUnits` | eex/translators/lammps/lammps_metadata.py:294-296 | the parameter loop gives every parameter of `units`, and no other, the converted unit expression |
| `LammpsMetadata.AnnotateTerms` | eex/translators/lammps/lammps_metadata.py:292-297 | the term loop attaches `utype` to every term of one order |
| `LammpsMetadata.AnnotateTermData` | eex/translators/lammps/lammps_metadata.py:290-297 | the order loop annotates the terms of every order |
| `LammpsMetadata.TermTable` | eex/translators/lammps/lammps_metadata.py:284-298 | `build_term_table` raises KeyError(name) iff the style is unknown, given that `convert_contexts` does not raise; otherwise it keeps every term order |
| `LammpsMetadata.BuildTermTable` | eex/translators/lammps/lammps_metadata.py:284-298 | `build_term_table` equals its specification `TermTable` |
| `LammpsMetadata.TermTableSpec` | eex/translators/lammps/lammps_metadata.py:286-297 | the term table raises iff the style is unknown, given that `convert_contexts` does not raise; otherwise it keeps every order and term name, each term's units and other fields, and its `utype` has exactly the keys of its units, each the converted unit under the style |
| `LammpsMetadata.AnnotatedTermDataIdempotent` | eex/translators/lammps/lammps_metadata.py:290-297 | annotating already annotated term data changes nothing (a fact of the parameterised model; the source always starts from the module's own term data) |
| `LammpsMetadata.TermTableIdempotent` | eex/translators/lammps/lammps_metadata.py:284-298 | building the term table from a built one gives the same table (a fact of the parameterised model only; the source cannot pass a built table back in) |
| `BondConverters.ConvertNothing` | eex/form_converters/bond_converters.py:9-10 | returns its coefficients: same length, same element at every index; total, the empty vector included |
| `BondConverters.ConvertNothingIdempotent` | eex/form_converters/bond_converters.py:9-10 | converting twice equals converting once |
| `BondConverters.RegisteredForBondsOnly` | eex/form_converters/bond_converters.py:8 | the converter's registered order is 2 and no other |
| `AngleConverters.ConvertNothing` | eex/form_converters/angle_converters.py:8-9 | returns its coefficients: same length, same element at every index; total, the empty vector included |
| `AngleConverters.ConvertNothingIdempotent` | eex/form_converters/angle_converters.py:8-9 | converting twice equals converting once |
| `AngleConverters.RegisteredForAnglesOnly` | eex/form_converters/angle_converters.py:7 | the converter's registered order is 3 and no other |

## Left out

- `eex.units.convert_contexts` is a function parameter, `convert`. Nothing is assumed about the expression it returns. It is assumed to be total and deterministic, so its exceptions are not modelled: a placeholder that a style cannot resolve, say any placeholder under the empty "lj" style, could make `build_term_table` raise, and the model does not show that. Unit parsing and conversion belong to Pint, which is not part of this model.
- TermTableSpec: its "raises iff the style is unknown" holds only under the assumption above that `convert_contexts` never raises.
- TermTable: its "raises iff the style is unknown" carries the same assumption about `convert_contexts`.
- `lammps_ff.term_data` is a parameter, `termData`, because its contents are not part of this model. Each term is its `units` map, its `utype` and an opaque rest `fields`. A term without `units`, which would raise in the source, cannot be written in the model.
- Python dict iteration order in `build_term_table` is not modelled. The term data and the unit maps are Dafny `map`s, and the result does not depend on the order in which they are visited.
- `converter_registry.register_converter` and its dispatch are not part of this model. The registration is recorded only as each converter's `RegisteredOrder`.
- Coefficients are `seq<real>`. The identity converters neither read nor compute them, so numpy arrays and floating point play no part.
- The header counts `size_dict` are `map<string, int>`. The source would copy a value of any type.
- The `__main__` block (lines 300-314) is left out. It parses every unit with Pint and prints, and it calls `build_operation_table` with a missing argument.
- `eex/metadata/default_contexts.py` and `eex/tests/test_lammps.py` are not part of this model. The first is a constant table that no modelled code reads. The second drives the data layer and the file reader and writer.
