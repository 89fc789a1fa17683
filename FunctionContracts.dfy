/** The conversion of a function contract into the provider's function
    definition: a JSON-schema object whose `properties` map holds one schema
    per parameter name and whose `required` list names the required
    parameters. The schema generated from a .NET type is left uninterpreted. */
module FunctionContracts {
  import opened Wrappers
  import opened Messages

  /** A .NET type, known only by its name. */
  datatype TypeRef = TypeRef(fullName: string)

  /** The schema the schema library derives from a type (uninterpreted). */
  datatype TypeSchema = SchemaFromType(t: TypeRef)

  /** A property schema: the type's schema, with the parameter's description
      when it has one. */
  datatype PropertySchema = PropertySchema(typeSchema: TypeSchema, description: Option<string>)

  /** The parameters schema: an object schema with properties and required names. */
  datatype ObjectSchema = ObjectSchema(properties: map<string, PropertySchema>, required: seq<string>)

  /** One parameter of a function contract. */
  datatype ParameterContract = ParameterContract(
    name: Option<string>,
    parameterType: Option<TypeRef>,
    description: Option<string>,
    isRequired: bool)

  /** A function contract; a null parameter list is `None`. */
  datatype FunctionContract = FunctionContract(
    name: string,
    description: Option<string>,
    parameters: Option<seq<ParameterContract>>)

  /** The provider's function definition. */
  datatype FunctionDefinition = FunctionDefinition(
    functionName: string,
    description: Option<string>,
    parameters: ObjectSchema)

  /** The parameter has both a name and a type. */
  predicate WellFormed(p: ParameterContract) {
    p.name.Some? && p.parameterType.Some?
  }

  /** The error the first malformed parameter raises, checking the name before the type. */
  function FirstMalformed(ps: seq<ParameterContract>): (e: Option<Error>)
    ensures e.None? <==> forall k :: 0 <= k < |ps| ==> WellFormed(ps[k])
    ensures e.Some? ==>
      exists k :: 0 <= k < |ps| && !WellFormed(ps[k]) && (forall j :: 0 <= j < k ==> WellFormed(ps[j])) &&
                  e.value == (if ps[k].name.None? then NullParameterName else NullParameterType)
  {
    if ps == [] then None
    else if ps[0].name.None? then Some(NullParameterName)
    else if ps[0].parameterType.None? then Some(NullParameterType)
    else
      var e := FirstMalformed(ps[1..]);
      assert forall k :: 1 <= k < |ps| ==> ps[1..][k - 1] == ps[k];
      e
  }

  /** Past a well-formed prefix, the first malformed parameter is found in the rest. */
  lemma {:induction false} FirstMalformedAppend(a: seq<ParameterContract>, b: seq<ParameterContract>)
    requires FirstMalformed(a).None?
    ensures FirstMalformed(a + b) == FirstMalformed(b)
  {
    if a == [] {
      assert a + b == b;
    } else {
      assert (a + b)[0] == a[0] && (a + b)[1..] == a[1..] + b;
      FirstMalformedAppend(a[1..], b);
    }
  }

  /** The property schema of a well-formed parameter. */
  function PropertySchemaOf(p: ParameterContract): PropertySchema
    requires WellFormed(p)
  {
    PropertySchema(SchemaFromType(p.parameterType.value), p.description)
  }

  /** The names of the required parameters, in parameter order. */
  function RequiredNames(ps: seq<ParameterContract>): seq<string> {
    if ps == [] then []
    else
      var last := ps[|ps| - 1];
      RequiredNames(ps[..|ps| - 1]) + (if last.isRequired && last.name.Some? then [last.name.value] else [])
  }

  /** The properties map: each parameter written under its name, later ones over earlier ones. */
  function PropertyMap(ps: seq<ParameterContract>): map<string, PropertySchema> {
    if ps == [] then map[]
    else
      var last := ps[|ps| - 1];
      var m := PropertyMap(ps[..|ps| - 1]);
      if WellFormed(last) then m[last.name.value := PropertySchemaOf(last)] else m
  }

  /** The definition a contract converts to, or the error the conversion raises. */
  function FunctionDefinitionOf(c: FunctionContract): Result<FunctionDefinition, Error> {
    var ps := c.parameters.GetOr([]);
    match FirstMalformed(ps)
    case Some(e) => Failure(e)
    case None => Success(FunctionDefinition(c.name, c.description, ObjectSchema(PropertyMap(ps), RequiredNames(ps))))
  }

  /** The conversion as the source performs it: one pass over the parameters that
      appends to the required list and writes into the properties dictionary. */
  method ToOpenAIFunctionDefinition(c: FunctionContract) returns (r: Result<FunctionDefinition, Error>)
    ensures r == FunctionDefinitionOf(c)
    ensures r.Success? ==> r.value.functionName == c.name && r.value.description == c.description
    ensures c.parameters.None? ==> r == Success(FunctionDefinition(c.name, c.description, ObjectSchema(map[], [])))
  {
    var ps := c.parameters.GetOr([]);
    var requiredParameterNames: seq<string> := [];
    var propertiesSchemas: map<string, PropertySchema> := map[];
    for i := 0 to |ps|
      invariant FirstMalformed(ps[..i]).None?
      invariant requiredParameterNames == RequiredNames(ps[..i])
      invariant propertiesSchemas == PropertyMap(ps[..i])
    {
      var param := ps[i];
      if param.name.None? {
        MalformedAt(ps, i);
        return Failure(NullParameterName);
      }
      if param.parameterType.None? {
        MalformedAt(ps, i);
        return Failure(NullParameterType);
      }
      var schema := PropertySchema(SchemaFromType(param.parameterType.value), param.description);
      if param.isRequired {
        requiredParameterNames := requiredParameterNames + [param.name.value];
      }
      propertiesSchemas := propertiesSchemas[param.name.value := schema];
      WellFormedStep(ps, i);
    }
    assert ps[..|ps|] == ps;
    r := Success(FunctionDefinition(c.name, c.description, ObjectSchema(propertiesSchemas, requiredParameterNames)));
  }

  /** A malformed parameter after a well-formed prefix decides the conversion's error. */
  lemma MalformedAt(ps: seq<ParameterContract>, i: nat)
    requires i < |ps| && FirstMalformed(ps[..i]).None? && !WellFormed(ps[i])
    ensures FirstMalformed(ps) == Some(if ps[i].name.None? then NullParameterName else NullParameterType)
  {
    FirstMalformedAppend(ps[..i], ps[i..]);
    assert ps[..i] + ps[i..] == ps;
    assert ps[i..][0] == ps[i];
  }

  /** One well-formed parameter extends the prefix's required list and properties map. */
  lemma WellFormedStep(ps: seq<ParameterContract>, i: nat)
    requires i < |ps| && FirstMalformed(ps[..i]).None? && WellFormed(ps[i])
    ensures FirstMalformed(ps[..i + 1]).None?
    ensures RequiredNames(ps[..i + 1]) ==
      RequiredNames(ps[..i]) + (if ps[i].isRequired then [ps[i].name.value] else [])
    ensures PropertyMap(ps[..i + 1]) == PropertyMap(ps[..i])[ps[i].name.value := PropertySchemaOf(ps[i])]
  {
    assert ps[..i + 1][..i] == ps[..i];
    FirstMalformedAppend(ps[..i], [ps[i]]);
    assert ps[..i] + [ps[i]] == ps[..i + 1];
  }

  /** The required list keeps parameter order: it distributes over concatenation. */
  lemma {:induction false} RequiredNamesAppend(a: seq<ParameterContract>, b: seq<ParameterContract>)
    ensures RequiredNames(a + b) == RequiredNames(a) + RequiredNames(b)
  {
    if b == [] {
      assert a + b == a;
    } else {
      var b' := b[..|b| - 1];
      assert (a + b)[..|a + b| - 1] == a + b';
      assert (a + b)[|a + b| - 1] == b[|b| - 1];
      RequiredNamesAppend(a, b');
    }
  }

  /** A name is required exactly when some parameter with that name is required. */
  lemma {:induction false} RequiredNamesMembers(ps: seq<ParameterContract>, n: string)
    ensures n in RequiredNames(ps) <==> exists k :: 0 <= k < |ps| && ps[k].isRequired && ps[k].name == Some(n)
  {
    if ps != [] {
      var init := ps[..|ps| - 1];
      RequiredNamesMembers(init, n);
      assert forall k :: 0 <= k < |init| ==> init[k] == ps[k];
    }
  }

  /** With well-formed parameters, the properties map has one key per distinct parameter name. */
  lemma {:induction false} PropertyMapKeys(ps: seq<ParameterContract>)
    requires forall k :: 0 <= k < |ps| ==> WellFormed(ps[k])
    ensures PropertyMap(ps).Keys == set k | 0 <= k < |ps| && ps[k].name.Some? :: ps[k].name.value
  {
    if ps != [] {
      var init := ps[..|ps| - 1];
      PropertyMapKeys(init);
      assert forall k :: 0 <= k < |init| ==> init[k] == ps[k];
      var s := set k | 0 <= k < |ps| && ps[k].name.Some? :: ps[k].name.value;
      var si := set k | 0 <= k < |init| && init[k].name.Some? :: init[k].name.value;
      assert s == si + {ps[|ps| - 1].name.value};
    }
  }

  /** A property holds the schema of the last parameter with its name. */
  lemma {:induction false} PropertyMapLastWins(ps: seq<ParameterContract>, i: nat)
    requires i < |ps| && WellFormed(ps[i])
    requires forall j :: i < j < |ps| && WellFormed(ps[j]) ==> ps[j].name != ps[i].name
    ensures ps[i].name.value in PropertyMap(ps)
    ensures PropertyMap(ps)[ps[i].name.value] == PropertySchemaOf(ps[i])
  {
    if i < |ps| - 1 {
      var init := ps[..|ps| - 1];
      assert forall k :: 0 <= k < |init| ==> init[k] == ps[k];
      PropertyMapLastWins(init, i);
    }
  }

  /** A contract converts exactly when all its parameters have a name and a type;
      the definition then copies the contract's name and description, requires
      exactly the required parameters' names and has a property for every name. */
  lemma FunctionDefinitionOfContract(c: FunctionContract)
    ensures var ps := c.parameters.GetOr([]);
      (FunctionDefinitionOf(c).Success? <==> forall k :: 0 <= k < |ps| ==> WellFormed(ps[k])) &&
      (FunctionDefinitionOf(c).Success? ==>
        var d := FunctionDefinitionOf(c).value;
        d.functionName == c.name && d.description == c.description &&
        d.parameters.properties.Keys == (set k | 0 <= k < |ps| && ps[k].name.Some? :: ps[k].name.value) &&
        forall n :: n in d.parameters.required <==> exists k :: 0 <= k < |ps| && ps[k].isRequired && ps[k].name == Some(n))
  {
    var ps := c.parameters.GetOr([]);
    if FunctionDefinitionOf(c).Success? {
      PropertyMapKeys(ps);
      forall n ensures n in RequiredNames(ps) <==> exists k :: 0 <= k < |ps| && ps[k].isRequired && ps[k].name == Some(n) {
        RequiredNamesMembers(ps, n);
      }
    }
  }
}
