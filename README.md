# Pavas shopkeepers' security survey — a Dafny model of its visibility rules and record

The survey (`app.py`) asks shopkeepers in Pavas about assaults, vehicle theft and
police presence. It reveals follow-up questions only when a parent answer takes
a particular value. On "Enviar Encuesta" it builds one flat record of 25 keys,
the submission time first, and appends it to a CSV file.

With the Streamlit calls stripped away, this is a total, deterministic function
from the widgets' answers to a fixed-schema record. The model has four modules:

- `Wrappers` (`wrappers.dfy`): `Option`. `None` is Python's `None`, the record's
  "not applicable" marker. It also marks a script variable that was never bound.
- `Catalog` (`catalog.dfy`): the closed option sets and the security scale with
  its labels. It also has one `Question` per stored answer with its record key
  (`KeyOf`, `Schema`), its kind (`KindOf`), and the parent answer that reveals it
  (`GuardOf`). The visibility rule `Active` follows the chain of parents. `Answers`
  holds what each widget returns when rendered. `Stored` is the reference
  definition of what the record must hold for each question.
- `Form` (`form.dfy`): the script itself. `Shown` holds the conditions of the
  `if`s around each widget. `Run` models the question section: it binds the
  follow-up variables, or leaves them unbound (`Env`). `Assemble` is the record
  literal and `Submit` is the two together. `ToRow`, `Keys` and `Get` give the
  record's flat view as ordered (key, value) pairs.
- `Properties` (`properties.dfy`): the lemmas.

The record is a datatype with one field per key, in the literal's order.
`ToRow` turns it into the ordered pairs, with the keys taken from `Schema`.
`Column(r, q)` gives the value under a question's key.

Four details of the code that the model keeps:

- Record assembly never fails. Every radio always has a value, so no submission
  is ever incomplete.
- `tipo_negocio` is stored unchanged. The "other" text is stored beside it in
  `otro_negocio_especificado`; it does not replace it.
- `otro_negocio_especificado` is `""` rather than `None` when the business type
  is not "Otro". Every other hidden follow-up is `None`.
- `sentimiento_seguridad` stores the integer scale key (1..5). The label
  ("3 - Neutral") is used only for display.

## Model

| member | source | states |
|---|---|---|
| Catalog.EtiquetaEscala | app.py:33-36 | the display label of scale key k starts with k's digit followed by " - "; it is used only as the radio's format function (line 113) |
| Form.Run | app.py:52-137 | after the question section, every variable the record literal reads under a condition is bound whenever that condition holds, so submitting never hits an unbound name |
| Form.Assemble | app.py:144-170 | no contract of its own: the record literal, which reads a follow-up variable only under the condition that binds it (its `requires Defined(e)`). `Form.ScriptRecord` and `Form.Submit` state what it holds |
| Form.Submit | app.py:142-170 | for every answer set, the submitted record's time is the given time, and each question's entry is the catalog's reference value `Stored`: the answer when every reveal condition along the question's chain holds, and the hidden marker (None, or "" for `otro_negocio_especificado`) otherwise |
| Form.Shown | app.py:53-124 | no contract of its own: the conjunction of the `if` conditions that enclose each widget (lines 53, 71, 77, 83, 90, 97 and 124). `Form.ShownIsActive` ties it to `Catalog.Active` |
| Form.ScriptRecord | app.py:144-170 | the record literal holds each question's answer when the script renders the widget, and the hidden marker when not |
| Form.ShownIsActive | app.py:52-125 | the script's nested `if` conditions and the catalog's chain of reveal conditions show exactly the same questions |
| Form.ToRow | app.py:144-170 | the flat row has 25 entries: first ("timestamp", time), then each question's key and value; its keys are exactly `Schema`, in order |
| Properties.SchemaShape | app.py:144-170 | the schema has 25 pairwise distinct keys, and `timestamp` comes first |
| Properties.GetAt | app.py:144-170 | in a row with distinct keys, looking up the key at position i returns the value at position i |
| Properties.RowShape | app.py:144-170 | for every record, the row's keys are the schema in order; looking up "timestamp" gives the time, and looking up a question's key gives that question's value |
| Properties.SubmittedRow | app.py:142-170 | whatever the answers, the submitted row has the fixed keys; its timestamp is the given time, and each key holds the catalog value `Stored` |
| Properties.AssaultFollowUpsNeedVictim | app.py:71-91 | unless `victima_asalto` is "Sí", all eight assault follow-ups are None; when it is "Sí", the five direct follow-ups hold their answers (lines 151-158) |
| Properties.WeaponTypeNeedsBothAncestors | app.py:75-78 | `tipo_arma_especificado` is the typed text exactly when `victima_asalto` = "Sí" and `uso_armas` = "Sí", and None otherwise (line 153) |
| Properties.OtherBelongingsNeedBothAncestors | app.py:82-86 | `otras_pertenencias_especificadas` is the typed text exactly when the victim answer is "Sí" and "Otras pertenencias de clientes" was stolen, and None otherwise (line 156) |
| Properties.NoReportReasonNeedsBothAncestors | app.py:88-91 | `razon_no_denuncia` is the typed text exactly when the victim answer is "Sí" and `denuncia` = "No", and None otherwise (line 158) |
| Properties.VehicleBranchIndependent | app.py:97-101 | `tipo_robo_vehiculo` and `facilita_robos` hold their answers exactly when `robo_vehiculos` = "Sí". Two answer sets that agree on the three vehicle answers store the same values there, whatever their assault answers (lines 160-161) |
| Properties.PartialReasonOnlyWhenPartial | app.py:123-125 | `razon_parcial` is the typed text when `presencia_previene` = "Parcialmente", and None otherwise (line 167) |
| Properties.OtherBusinessBesideType | app.py:52-56 | `tipo_negocio` is stored as chosen; `otro_negocio_especificado` is the typed text for "Otro" and "" (not None) otherwise (lines 146-147) |
| Properties.SecurityScaleStoresKey | app.py:113 | when the widgets hold values from their option sets, `sentimiento_seguridad` is the chosen integer key, between 1 and 5, and not its label (line 163) |
| Properties.NoBranchTaken | app.py:144-170 | when no parent answer opens a branch, every follow-up is None, except `otro_negocio_especificado`, which is "" |
| Properties.TopLevelCopiedVerbatim | app.py:144-170 | every always-shown question's answer is copied into the record unchanged |
| Properties.ActiveIffChain | app.py:71-91 | a question is shown if and only if every reveal condition along its chain of ancestors holds (conjunction of ancestor conditions) |
| Properties.StoredDependsOnChain | app.py:71-101 | whether a question is shown, and what is stored for it, depends only on the answers along its own chain |
| Properties.ActiveDependsOnShownAnswers | app.py:52-125 | which questions are shown depends only on the answers of shown questions |
| Properties.HiddenAnswersNeverLeak | app.py:144-170 | two answer sets that agree on every shown question write the same row, so hidden widgets never reach the record |
| Properties.ClosedAnswersFromOptions | app.py:23-45 | when the widgets hold values from their option sets, every non-None value stored for a closed question is one of that question's options |

## Left out

- Page setup, the logo, headers, dividers, the widgets themselves and the success or error messages (`app.py:6-20`, `49-50`, `187-189`). They are UI. Widget results are fields of `Answers`. `WellFormed` states that each shown radio holds one of its options, and the lemmas that need it require it.
- `datetime.now()` (`app.py:145`): the clock is a parameter (`now: Timestamp`) of `Submit`.
- The pandas DataFrame and the CSV append, including the header fallback in the `FileNotFoundError` handler (`app.py:176-189`). This is file I/O through a library that is not part of this model. No header behaviour is modelled or claimed.
- Free-text contents: `st.text_input` and `st.text_area` values are arbitrary strings, because the code does not validate them.
- Streamlit's rerun-per-interaction cycle and the button press itself. One call of `Submit` models one run of the script in which "Enviar Encuesta" was pressed.
- `Form.Run`: its contract states only that the variables the record reads are bound. The values it binds are stated through `Form.ScriptRecord` and `Form.Submit`, which cover every variable that reaches the record. The `""` defaults of `tipo_arma`, `otras_pertenencias`, `razon_no_denuncia` and `razon_parcial` are set but never stored, so no lemma states them.
