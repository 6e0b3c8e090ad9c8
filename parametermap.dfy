/** ParameterMap: the parameters of a processing step and their values, a hash map from Parameter constants to
    objects, with a type check on get (and, as intended, on put). */
module ParameterMaps {
  import opened Wrappers

  /** A Java class, by its name. */
  datatype JClass = JClass(name: string)

  const DOUBLE: JClass := JClass("java.lang.Double")
  const INTEGER: JClass := JClass("java.lang.Integer")
  const STRING: JClass := JClass("java.lang.String")

  /** The classes a java.lang.Class object is an instance of: Class itself, Object and the interfaces
      Class implements. */
  const ClassObjectTypes: set<JClass> := {
    JClass("java.lang.Class"), JClass("java.lang.Object"), JClass("java.io.Serializable"),
    JClass("java.lang.reflect.GenericDeclaration"), JClass("java.lang.reflect.Type"),
    JClass("java.lang.reflect.AnnotatedElement")}

  /** A parameter value: its runtime class, the classes and interfaces it is also an instance of, and
      what it holds. */
  datatype Value = Value(cls: JClass, supertypes: set<JClass>, content: string)

  /** A Parameter constant: its name and its declared value type. */
  datatype Parameter = Parameter(name: string, declared: JClass)

  /** Class.isInstance: the value is of class t or of a subtype of it. */
  predicate IsInstance(t: JClass, v: Value)
  {
    v.cls == t || t in v.supertypes
  }

  /** put as written: the condition tests whether the declared type, a Class object, is an instance of
      the value's class, which holds only for values whose class is Class or one of its supertypes. */
  predicate PutRejectsAsWritten(p: Parameter, v: Value)
  {
    v.cls in ClassObjectTypes && !(p.declared == DOUBLE && v.cls == INTEGER)
  }

  /** put as intended: a value that is not of the declared type is refused, except an Integer for a
      Double parameter. */
  predicate PutRejects(p: Parameter, v: Value)
  {
    !IsInstance(p.declared, v) && !(p.declared == DOUBLE && v.cls == INTEGER)
  }

  /** As written, put checks nothing for ordinary values: a String goes into a Double parameter, which
      the intended check refuses. */
  lemma PutAsWrittenAcceptsMismatch()
    ensures var p := Parameter("MZ_WINDOW_PPM", DOUBLE);
      var v := Value(STRING, {JClass("java.lang.Object")}, "ten");
      !PutRejectsAsWritten(p, v) && PutRejects(p, v)
  {
    var p := Parameter("MZ_WINDOW_PPM", DOUBLE);
    var v := Value(STRING, {JClass("java.lang.Object")}, "ten");
    assert v.cls != JClass("java.lang.Class");
    assert STRING.name != "java.lang.Object";
  }

  /** As written, put refuses only values whose class is Class or a supertype of it, whatever the
      parameter's declared type. */
  lemma PutAsWrittenIgnoresDeclaredType(p: Parameter, q: Parameter, v: Value)
    ensures PutRejectsAsWritten(p, v) ==> v.cls in ClassObjectTypes
    ensures v.cls != INTEGER ==> PutRejectsAsWritten(p, v) == PutRejectsAsWritten(q, v)
  {
  }

  /** The type rule of get: the requested type is the declared one, or Double for an Integer parameter. */
  predicate TypeRule(p: Parameter, t: JClass)
  {
    p.declared == t || (t == DOUBLE && p.declared == INTEGER)
  }

  /** get: the type rule, then the key, then the cast of the stored value to the requested type. */
  function Get(parameters: map<Parameter, Value>, p: Parameter, t: JClass): Result<Value>
  {
    if !TypeRule(p, t) then Failure("Parameter value is not of type class " + t.name)
    else if p !in parameters then Failure(p.name + " is not in the map")
    else if !IsInstance(t, parameters[p]) then Failure("ClassCastException")
    else Success(parameters[p])
  }

  /** get succeeds exactly when the type rule holds, the key is present and the value is of the
      requested type, and then returns the stored value. */
  lemma GetSucceeds(parameters: map<Parameter, Value>, p: Parameter, t: JClass)
    ensures Get(parameters, p, t).Success? <==> TypeRule(p, t) && p in parameters && IsInstance(t, parameters[p])
    ensures Get(parameters, p, t).Success? ==> Get(parameters, p, t).value == parameters[p]
    ensures p !in parameters ==> Get(parameters, p, t).Failure?
  {
  }

  /** An Integer parameter read as Double passes the type rule, but an Integer value stored under it
      fails the cast. */
  lemma IntegerReadAsDouble(parameters: map<Parameter, Value>, p: Parameter)
    requires p.declared == INTEGER && p in parameters
    requires parameters[p].cls == INTEGER && DOUBLE !in parameters[p].supertypes
    ensures TypeRule(p, DOUBLE) && Get(parameters, p, DOUBLE) == Failure("ClassCastException")
  {
  }

  /** A value of the declared type put under a parameter is what get returns for it, and no other
      parameter's get changes. */
  lemma PutThenGet(parameters: map<Parameter, Value>, p: Parameter, v: Value, q: Parameter, t: JClass)
    requires IsInstance(p.declared, v)
    ensures !PutRejects(p, v)
    ensures Get(parameters[p := v], p, p.declared) == Success(v)
    ensures q != p ==> Get(parameters[p := v], q, t) == Get(parameters, q, t)
  {
  }

  class ParameterMap {
    var parameters: map<Parameter, Value>

    /** An empty parameter map. */
    constructor ()
      ensures parameters == map[]
    {
      parameters := map[];
    }

    /** A parameter map over the given entries. */
    constructor FromMap(parameters: map<Parameter, Value>)
      ensures this.parameters == parameters
    {
      this.parameters := parameters;
    }

    /** put: a null parameter is refused, a null value fails when its class is asked for, a value of
        the wrong type is refused; otherwise the value is stored under the parameter. */
    method Put(parameter: Option<Parameter>, instance: Option<Value>) returns (error: Option<string>)
      modifies this
      ensures error.None? <==> parameter.Some? && instance.Some? && !PutRejects(parameter.value, instance.value)
      ensures error.None? ==> parameters == old(parameters)[parameter.value := instance.value]
      ensures error.Some? ==> parameters == old(parameters)
    {
      if parameter.None? {
        return Some("Parameter is null");
      }
      if instance.None? {
        return Some("NullPointerException");
      }
      var p, v := parameter.value, instance.value;
      if !IsInstance(p.declared, v) {
        if !(p.declared == DOUBLE && v.cls == INTEGER) {
          return Some("Parameter value is not of type class " + p.declared.name);
        }
      }
      parameters := parameters[p := v];
      return None;
    }

    /** get: the stored value when the type rule and the cast allow it. */
    method GetValue(parameter: Parameter, t: JClass) returns (r: Result<Value>)
      ensures r == Get(parameters, parameter, t)
    {
      if parameter.declared != t {
        if !(t == DOUBLE && parameter.declared == INTEGER) {
          return Failure("Parameter value is not of type class " + t.name);
        }
      }
      if !ContainsKey(parameter) {
        return Failure(parameter.name + " is not in the map");
      }
      var v := parameters[parameter];
      if !IsInstance(t, v) {
        return Failure("ClassCastException");
      }
      return Success(v);
    }

    /** containsKey: exactly the keys for which get passes its presence test, a key that is not
        contained makes get fail with the absent-key error, and a contained value of the declared
        type is what get returns. */
    predicate ContainsKey(parameter: Parameter)
      reads this
      ensures !ContainsKey(parameter) ==> Get(parameters, parameter, parameter.declared) == Failure(parameter.name + " is not in the map")
      ensures ContainsKey(parameter) && IsInstance(parameter.declared, parameters[parameter]) ==> Get(parameters, parameter, parameter.declared) == Success(parameters[parameter])
    {
      parameter in parameters
    }

    /** clone: a new map object holding a copy of the entries, so puts on either leave the other alone. */
    method Clone() returns (c: ParameterMap)
      ensures fresh(c) && c.parameters == parameters
    {
      c := new ParameterMap.FromMap(parameters);
    }
  }
}
