/**
 * A criteria-query join to a persistent collection of type `java.util.Map`
 * (BasicMapJoinImpl): the projections of the map's key, value and entry,
 * joining onward to the map key, and correlating the join into a subquery.
 *
 * The metamodel and criteria types it touches are reduced to small records;
 * the path objects it builds (MapKeyHelpers) are tagged values that record
 * only the arguments they are built from.
 */
module CriteriaMapJoin {

  import opened Wrappers

  /** javax.persistence.metamodel.Type.PersistenceType */
  datatype PersistenceType = BASIC | EMBEDDABLE | ENTITY | MAPPED_SUPERCLASS

  /** javax.persistence.criteria.JoinType */
  datatype JoinType = INNER | LEFT | RIGHT

  /** The join type used when the caller names none; it is declared by the join's superclass. */
  const DEFAULT_JOIN_TYPE: JoinType := INNER

  /** A Java class object, known by its name. */
  datatype JavaClass = JavaClass(name: string)

  /** The class object `Map.Entry.class` that entry() passes on. */
  const MAP_ENTRY_CLASS: JavaClass := JavaClass("java.util.Map$Entry")

  /** The query builder every criteria object is created with. */
  datatype QueryBuilder = QueryBuilder(id: nat)

  /** The metamodel type behind a path (what `getModel()` of the owner path returns). */
  datatype PathModel = PathModel(typeName: string)

  /** The owner path on the left-hand side of the join. */
  datatype OwnerPath = OwnerPath(id: nat, model: PathModel)

  /** A map-valued attribute of the owner: its name, its Java type and the persistence type of its key. */
  datatype MapAttribute = MapAttribute(name: string, javaType: JavaClass, keyPersistenceType: PersistenceType)

  /** The scope joins are registered in: the one the join starts with, or that of a subquery. */
  datatype JoinScope = InitialScope | SubqueryScope(subqueryId: nat)

  /** A criteria subquery, as far as correlation needs it: its own join scope. */
  datatype CriteriaSubquery = CriteriaSubquery(id: nat) {
    function GetJoinScope(): (scope: JoinScope)
    {
      SubqueryScope(id)
    }
  }

  /** MapKeyHelpers.MapPath: the map itself as a path, built over the join. */
  datatype MapPath = MapPath(
    queryBuilder: QueryBuilder,
    javaType: JavaClass,
    mapJoin: BasicMapJoin,
    attribute: MapAttribute,
    parentModel: PathModel)

  /** MapKeyHelpers.MapKeyAttribute: the key of a map attribute, seen as an attribute. */
  datatype MapKeyAttribute = MapKeyAttribute(queryBuilder: QueryBuilder, mapAttribute: MapAttribute)

  /** MapKeyHelpers.MapKeyJoin: a join to the map key. */
  datatype MapKeyJoin = MapKeyJoin(
    queryBuilder: QueryBuilder,
    source: MapPath,
    attribute: MapKeyAttribute,
    joinType: JoinType)

  /** MapKeyHelpers.MapKeyPath: a path to the map key. */
  datatype MapKeyPath = MapKeyPath(queryBuilder: QueryBuilder, source: MapPath, attribute: MapKeyAttribute)

  /** MapKeyHelpers.MapEntryExpression: the map entry as an expression. */
  datatype MapEntryExpression = MapEntryExpression(
    queryBuilder: QueryBuilder,
    javaType: JavaClass,
    attribute: MapAttribute)

  /** The exceptions joinKey throws. */
  datatype JoinError =
    | BasicPathUsageException(message: string, attribute: MapAttribute)
    | UnsupportedOperationException(message: string)

  /** Everything a join is built from; a correlation copies all of it. */
  datatype JoinDescriptor = JoinDescriptor(
    queryBuilder: QueryBuilder,
    javaType: JavaClass,
    parentPath: OwnerPath,
    attribute: MapAttribute,
    joinType: JoinType)

  class BasicMapJoin {
    // Set once when the join is built (final in the join's superclass).
    const queryBuilder: QueryBuilder
    const javaType: JavaClass
    const parentPath: OwnerPath
    const attribute: MapAttribute
    const joinType: JoinType

    // Assigned after construction, when the join is correlated into a subquery.
    var joinScope: JoinScope
    var correlationParent: BasicMapJoin?

    constructor (queryBuilder: QueryBuilder, javaType: JavaClass, lhs: OwnerPath,
                 joinProperty: MapAttribute, joinType: JoinType)
      ensures Descriptor() == JoinDescriptor(queryBuilder, javaType, lhs, joinProperty, joinType)
      ensures joinScope == InitialScope
      ensures correlationParent == null && !IsCorrelated()
    {
      this.queryBuilder := queryBuilder;
      this.javaType := javaType;
      this.parentPath := lhs;
      this.attribute := joinProperty;
      this.joinType := joinType;
      this.joinScope := InitialScope;
      this.correlationParent := null;
    }

    /** The construction arguments of this join, as one value. */
    function Descriptor(): JoinDescriptor
    {
      JoinDescriptor(queryBuilder, javaType, parentPath, attribute, joinType)
    }

    /** The map attribute this join navigates. */
    function GetAttribute(): (a: MapAttribute)
      ensures a == Descriptor().attribute
    {
      attribute
    }

    /** The metamodel object of the join: its map attribute. */
    function GetModel(): (m: MapAttribute)
      ensures m == GetAttribute()
    {
      GetAttribute()
    }

    /** The map itself as a path, the source of key() and joinKey(). */
    function MapSource(): (m: MapPath)
      ensures m.queryBuilder == queryBuilder && m.javaType == attribute.javaType
      ensures m.mapJoin == this && m.attribute == attribute && m.parentModel == parentPath.model
    {
      MapPath(queryBuilder, GetAttribute().javaType, this, GetAttribute(), parentPath.model)
    }

    /**
     * Joins to the map key. A basic-typed key is refused first, whatever the
     * join type; otherwise a RIGHT join is refused; otherwise the key join is
     * built over this join with exactly the requested join type.
     */
    function JoinKey(jt: JoinType): (r: Result<MapKeyJoin, JoinError>)
      ensures r.Failure? <==> attribute.keyPersistenceType == BASIC || jt == RIGHT
      ensures attribute.keyPersistenceType == BASIC ==>
                r == Failure(BasicPathUsageException("Cannot join to map key of basic type", attribute))
      ensures attribute.keyPersistenceType != BASIC && jt == RIGHT ==>
                r == Failure(UnsupportedOperationException("RIGHT JOIN not supported"))
      ensures r.Success? ==> r.value.source == MapSource()
      ensures r.Success? ==>
                && r.value.joinType == jt
                && r.value.queryBuilder == queryBuilder
                && r.value.source.queryBuilder == queryBuilder
                && r.value.source.javaType == attribute.javaType
                && r.value.source.mapJoin == this
                && r.value.source.attribute == attribute
                && r.value.source.parentModel == parentPath.model
                && r.value.attribute == MapKeyAttribute(queryBuilder, attribute)
    {
      if GetAttribute().keyPersistenceType == BASIC then
        Failure(BasicPathUsageException("Cannot join to map key of basic type", GetAttribute()))
      else if jt == RIGHT then
        Failure(UnsupportedOperationException("RIGHT JOIN not supported"))
      else
        var source := MapSource();
        var keyAttribute := MapKeyAttribute(queryBuilder, GetAttribute());
        Success(MapKeyJoin(queryBuilder, source, keyAttribute, jt))
    }

    /** joinKey() without a join type: the default join type, which is never RIGHT. */
    function JoinKeyDefault(): (r: Result<MapKeyJoin, JoinError>)
      ensures r == JoinKey(DEFAULT_JOIN_TYPE)
      ensures r.Failure? <==> attribute.keyPersistenceType == BASIC
      ensures r.Success? ==> r.value.joinType == DEFAULT_JOIN_TYPE
    {
      JoinKey(DEFAULT_JOIN_TYPE)
    }

    /** The map key as a path. Unlike joinKey, this is allowed for keys of every persistence type. */
    function Key(): (p: MapKeyPath)
      ensures p.queryBuilder == queryBuilder && p.source == MapSource()
      ensures p.source.queryBuilder == queryBuilder && p.source.mapJoin == this && p.source.attribute == attribute
      ensures p.source.javaType == attribute.javaType && p.source.parentModel == parentPath.model
      ensures p.attribute == MapKeyAttribute(queryBuilder, attribute)
    {
      MapKeyPath(queryBuilder, MapSource(), MapKeyAttribute(queryBuilder, GetAttribute()))
    }

    /** The map value as a path: the join itself. */
    function Value(): (v: BasicMapJoin)
      ensures v == this
    {
      this
    }

    /** The map entry as an expression of type Map.Entry over the join's attribute. */
    function Entry(): (e: MapEntryExpression)
      ensures e.queryBuilder == queryBuilder
      ensures e.javaType == MAP_ENTRY_CLASS
      ensures e.attribute == attribute
    {
      MapEntryExpression(queryBuilder, MAP_ENTRY_CLASS, GetAttribute())
    }

    /** The join this one was correlated from, or null. */
    function GetCorrelationParent(): (p: BasicMapJoin?)
      reads this
      ensures p == correlationParent
    {
      correlationParent
    }

    /** Whether this join was produced by correlateTo. */
    predicate IsCorrelated()
      reads this
      ensures IsCorrelated() <==> GetCorrelationParent() != null
    {
      GetCorrelationParent() != null
    }

    /** Places the join in the given scope (a superclass operation, reduced to recording the scope). */
    method DefineJoinScope(scope: JoinScope)
      modifies this`joinScope
      ensures joinScope == scope
    {
      joinScope := scope;
    }

    /**
     * Builds a copy of this join for use inside a subquery: same construction
     * arguments, the subquery's join scope, and this join as its correlation
     * parent. This join itself is left as it was.
     */
    method CorrelateTo(subquery: CriteriaSubquery) returns (correlation: BasicMapJoin)
      ensures fresh(correlation)
      ensures correlation.Descriptor() == Descriptor()
      ensures correlation.joinScope == subquery.GetJoinScope()
      ensures correlation.GetCorrelationParent() == this
      ensures correlation.IsCorrelated()
      ensures unchanged(this)
    {
      correlation := new BasicMapJoin(queryBuilder, javaType, parentPath, GetAttribute(), joinType);
      correlation.DefineJoinScope(subquery.GetJoinScope());
      correlation.correlationParent := this;
    }
  }

  /**
   * key() and a successful joinKey(jt) are built over equal map paths and key
   * attributes: each builds its own, from the same arguments.
   */
  lemma KeyAndJoinKeyShareSource(j: BasicMapJoin, jt: JoinType)
    requires j.JoinKey(jt).Success?
    ensures j.JoinKey(jt).value.source == j.Key().source
    ensures j.JoinKey(jt).value.attribute == j.Key().attribute
  {
  }
}
