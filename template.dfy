/**
 * sqlhelper's `DynamicSqlSessionTemplate`: a MyBatis-Spring session
 * template over a `DynamicSqlSessionFactory` that builds, for every mapper
 * interface, one MyBatis mapper per data source and hands them to a
 * `DynamicMapper` that routes each call; and its session interceptor, which
 * runs one call on one session and releases that session once.
 */
module DynamicSqlSession {
  import opened Collaborators
  import opened SessionLifecycle

  /**
   * The `DynamicMapper` invocation handler as the template builds it: the
   * mapper interface, one delegate mapper per data source key, the key
   * selector, and the key router if one was set.
   */
  datatype DynamicMapper<M> = DynamicMapper(
    mapperInterface: MapperInterface,
    delegateMappers: map<DataSourceKey, M>,
    selector: Option<DataSourceKeySelector>,
    router: Option<DataSourceKeyRouter>)

  class DynamicSqlSessionTemplate {
    // Fields of the MyBatis-Spring super class, final there.
    const sqlSessionFactory: SqlSessionFactory
    const executorType: ExecutorType
    const exceptionTranslator: Option<Translator>

    var selector: Option<DataSourceKeySelector>
    var mapperDataSourceKeyRouter: Option<DataSourceKeyRouter>

    /** The one-argument constructor: forwards a null executor type. */
    constructor (sqlSessionFactory: SqlSessionFactory)
      ensures this.sqlSessionFactory == sqlSessionFactory
      ensures executorType == SIMPLE && exceptionTranslator.None?
      ensures selector.None? && mapperDataSourceKeyRouter.None?
    {
      this.sqlSessionFactory := sqlSessionFactory;
      executorType := SIMPLE;
      exceptionTranslator := None;
      selector := None;
      mapperDataSourceKeyRouter := None;
    }

    /**
     * The two-argument constructor: the executor type argument is ignored,
     * the super class always gets SIMPLE and no exception translator.
     */
    constructor WithExecutorType(sqlSessionFactory: SqlSessionFactory, executorType: Option<ExecutorType>)
      ensures this.sqlSessionFactory == sqlSessionFactory
      ensures this.executorType == SIMPLE && exceptionTranslator.None?
      ensures selector.None? && mapperDataSourceKeyRouter.None?
    {
      this.sqlSessionFactory := sqlSessionFactory;
      this.executorType := SIMPLE;
      exceptionTranslator := None;
      selector := None;
      mapperDataSourceKeyRouter := None;
    }

    method SetSelector(selector: Option<DataSourceKeySelector>)
      modifies this`selector
      ensures this.selector == selector
    {
      this.selector := selector;
    }

    method SetMapperDataSourceKeyRouter(router: Option<DataSourceKeyRouter>)
      modifies this`mapperDataSourceKeyRouter
      ensures mapperDataSourceKeyRouter == router
    {
      mapperDataSourceKeyRouter := router;
    }

    /**
     * The downcast of the template's factory to a dynamic one: it fails
     * exactly when the factory is not dynamic, and otherwise is the
     * template's own factory.
     */
    function GetDynamicSqlSessionFactory(): (r: Result<SqlSessionFactory>)
      ensures r.Ok? <==> sqlSessionFactory.DynamicSqlSessionFactory?
      ensures r.Ok? ==> r.value == sqlSessionFactory
    {
      if sqlSessionFactory.DynamicSqlSessionFactory? then Ok(sqlSessionFactory)
      else Err(ClassCastException)
    }

    /**
     * Builds the dispatch table for `mapperInterface`: for every delegate
     * factory of the dynamic factory, the MyBatis mapper that the delegate's
     * configuration produces for this template, under the delegate's key.
     * `configurationGetMapper` stands for `Configuration.getMapper`, which
     * fails when the configuration does not know the interface; the first
     * such failure ends the build.
     */
    method GetMapper<M(==)>(mapperInterface: MapperInterface,
                            configurationGetMapper: (Configuration, MapperInterface, DynamicSqlSessionTemplate) -> Result<M>)
      returns (r: Result<DynamicMapper<M>>)
      ensures r.Ok? <==>
                (sqlSessionFactory.DynamicSqlSessionFactory? &&
                 forall key :: key in sqlSessionFactory.delegates ==>
                   configurationGetMapper(sqlSessionFactory.delegates[key].configuration, mapperInterface, this).Ok?)
      ensures !sqlSessionFactory.DynamicSqlSessionFactory? ==> r == Err(ClassCastException)
      ensures sqlSessionFactory.DynamicSqlSessionFactory? && r.Err? ==>
                exists key :: key in sqlSessionFactory.delegates &&
                  configurationGetMapper(sqlSessionFactory.delegates[key].configuration, mapperInterface, this) == Err(r.error)
      ensures r.Ok? ==> r.value.mapperInterface == mapperInterface
      ensures r.Ok? ==> r.value.delegateMappers.Keys == sqlSessionFactory.delegates.Keys
      ensures r.Ok? ==> forall key :: key in r.value.delegateMappers ==>
                configurationGetMapper(sqlSessionFactory.delegates[key].configuration, mapperInterface, this)
                == Ok(r.value.delegateMappers[key])
      ensures r.Ok? ==> r.value.selector == selector
      ensures r.Ok? ==> (r.value.router.Some? <==> mapperDataSourceKeyRouter.Some?)
      ensures r.Ok? && mapperDataSourceKeyRouter.Some? ==> r.value.router == mapperDataSourceKeyRouter
    {
      var cast := GetDynamicSqlSessionFactory();
      if cast.Err? {
        return Err(cast.error);
      }
      var sessionFactory := cast.value;
      var delegates := sessionFactory.delegates;
      var delegateMapperMap: map<DataSourceKey, M> := map[];
      var remaining := delegates.Keys;
      while remaining != {}
        invariant remaining <= delegates.Keys
        invariant delegateMapperMap.Keys == delegates.Keys - remaining
        invariant forall key :: key in delegateMapperMap ==>
                    configurationGetMapper(delegates[key].configuration, mapperInterface, this) == Ok(delegateMapperMap[key])
        decreases remaining
      {
        var key :| key in remaining;
        var delegateFactory := delegates[key];
        var mybatisMapperProxy := configurationGetMapper(delegateFactory.configuration, mapperInterface, this);
        if mybatisMapperProxy.Err? {
          return Err(mybatisMapperProxy.error);
        }
        delegateMapperMap := delegateMapperMap[key := mybatisMapperProxy.value];
        remaining := remaining - {key};
      }
      var mapper := DynamicMapper(mapperInterface, delegateMapperMap, selector, None);
      if mapperDataSourceKeyRouter.Some? {
        mapper := mapper.(router := mapperDataSourceKeyRouter);
      }
      return Ok(mapper);
    }

    /**
     * Both branches on the number of delegates give the template's own
     * factory; the call fails only where the downcast does.
     */
    function GetLocalSqlSessionFactory(): (r: Result<SqlSessionFactory>)
      ensures r.Ok? <==> sqlSessionFactory.DynamicSqlSessionFactory?
      ensures r.Ok? ==> r.value == sqlSessionFactory
    {
      match GetDynamicSqlSessionFactory()
      case Err(e) => Err(e)
      case Ok(sessionFactory) =>
        if sessionFactory.Size() == 1 then Ok(sessionFactory)
        else Ok(sqlSessionFactory)
    }

    /**
     * With one delegate, the dynamic factory's configuration; otherwise the
     * configuration of the local factory, which is the same one.
     */
    function GetConfiguration(): (r: Result<Configuration>)
      ensures r.Ok? <==> sqlSessionFactory.DynamicSqlSessionFactory?
      ensures r.Ok? ==> r.value == sqlSessionFactory.configuration
      ensures r.Ok? && sqlSessionFactory.Size() != 1 ==>
                r.value == GetLocalSqlSessionFactory().value.configuration
    {
      match GetDynamicSqlSessionFactory()
      case Err(e) => Err(e)
      case Ok(sessionFactory) =>
        if sessionFactory.Size() == 1 then Ok(sessionFactory.configuration)
        else match GetLocalSqlSessionFactory()
          case Err(e) => Err(e)
          case Ok(local) => Ok(local.configuration)
    }
  }

  /**
   * The template's session interceptor: runs one call on a session obtained
   * for the template's factory, commits non-transactional sessions, unwraps
   * and possibly translates what the call throws, and releases the session.
   */
  class MultiDataSourceSqlSessionInterceptor {
    const template: DynamicSqlSessionTemplate

    constructor (template: DynamicSqlSessionTemplate)
      ensures this.template == template
    {
      this.template := template;
    }

    /** The session `SqlSessionUtils.getSqlSession` hands out for the template. */
    function AcquiredSession(support: SessionSupport): SqlSession {
      support.getSqlSession(template.sqlSessionFactory, template.executorType, template.exceptionTranslator)
    }

    /** Whether the call returned and its session is not transactional. */
    predicate CommitForced<R>(support: SessionSupport, target: SqlSession -> Outcome<R>) {
      var s := AcquiredSession(support);
      target(s).Returned? && !support.isSqlSessionTransactional(s, template.sqlSessionFactory)
    }

    /** What the body of the `try` throws: the call's error, or the forced commit's. */
    function Caught<R>(support: SessionSupport, target: SqlSession -> Outcome<R>): Option<Throwable> {
      var s := AcquiredSession(support);
      if target(s).Threw? then Some(target(s).error)
      else if CommitForced(support, target) then support.commit(s)
      else None
    }

    /** Whether the failure path releases early and calls the translator. */
    predicate Translates<R>(support: SessionSupport, target: SqlSession -> Outcome<R>) {
      var caught := Caught(support, target);
      caught.Some? && template.exceptionTranslator.Some? &&
      support.unwrapThrowable(caught.value).PersistenceException?
    }

    /**
     * One intercepted call. `target` is the mapper method applied to its
     * arguments; `log` records the side effects on the session and the
     * translator in the order they happen.
     */
    method Invoke<R>(target: SqlSession -> Outcome<R>, support: SessionSupport)
      returns (outcome: Outcome<R>, ghost log: seq<Event>)
      // the session is acquired, used, and released exactly once
      ensures log == Lifecycle(AcquiredSession(support), CommitForced(support, target),
                               if Translates(support, target)
                               then Some(support.unwrapThrowable(Caught(support, target).value)) else None)
      ensures Accepts(log) && log[0] == Acquire(AcquiredSession(support))
      ensures Count(log, CloseKind) == 1
      // success path
      ensures outcome.Returned? <==> Caught(support, target).None?
      ensures outcome.Returned? ==> outcome == target(AcquiredSession(support))
      ensures Count(log, CommitKind) == (if CommitForced(support, target) then 1 else 0)
      ensures target(AcquiredSession(support)).Threw? ==> Count(log, CommitKind) == 0
      // failure path: the unwrapped cause, or its translation if there is one
      ensures Caught(support, target).Some? && !Translates(support, target) ==>
                outcome == Threw(support.unwrapThrowable(Caught(support, target).value))
      ensures Translates(support, target) ==>
                var cause := support.unwrapThrowable(Caught(support, target).value);
                var translated := template.exceptionTranslator.value(cause);
                outcome == Threw(if translated.Some? then translated.value else cause)
      // the translator runs only on that path, once, and after the release
      ensures Count(log, TranslateKind) == (if Translates(support, target) then 1 else 0)
      ensures forall j :: 0 <= j < |log| && log[j].Translate? ==>
                Caught(support, target).Some? &&
                log[j].cause == support.unwrapThrowable(Caught(support, target).value) &&
                exists i :: 0 <= i < j && log[i] == Close(AcquiredSession(support))
    {
      var factory := template.sqlSessionFactory;
      var translator := template.exceptionTranslator;
      var session := support.getSqlSession(factory, template.executorType, translator);
      var sqlSession: Option<SqlSession> := Some(session);
      log := [Acquire(session)];

      // try
      var thrown: Option<Throwable>;
      var result := target(session);
      log := log + [Execute(session)];
      if result.Threw? {
        thrown := Some(result.error);
      } else if !support.isSqlSessionTransactional(session, factory) {
        log := log + [Commit(session)];
        thrown := support.commit(session);
      } else {
        thrown := None;
      }
      ghost var committed := result.Returned? && !support.isSqlSessionTransactional(session, factory);
      ghost var translatedCause: Option<Throwable> := None;

      if thrown.None? {
        outcome := result;
      } else {
        // catch
        var unwrapped := support.unwrapThrowable(thrown.value);
        if translator.Some? && unwrapped.PersistenceException? {
          // release before translating
          log := log + [Close(session)];
          sqlSession := None;
          log := log + [Translate(unwrapped)];
          translatedCause := Some(unwrapped);
          var translated := translator.value(unwrapped);
          if translated.Some? {
            unwrapped := translated.value;
          }
        }
        outcome := Threw(unwrapped);
      }

      // finally
      if sqlSession.Some? {
        log := log + [Close(sqlSession.value)];
      }
      assert thrown == Caught(support, target);
      assert log == Lifecycle(session, committed, translatedCause);
      LifecycleAccepted(session, committed, translatedCause);
    }
  }
}
