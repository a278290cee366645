# sqlhelper: the dynamic multi-data-source MyBatis session template

sqlhelper's `DynamicSqlSessionTemplate` is a MyBatis-Spring `SqlSessionTemplate` that works over a `DynamicSqlSessionFactory`. That factory holds one delegate `SqlSessionFactory` per data source, keyed by a `DataSourceKey`. The model covers three parts of the template:

- **Dispatch-table construction (`getMapper`).** For a mapper interface, the template asks every delegate factory's configuration for a MyBatis mapper bound to the template. It collects the mappers into a key-to-mapper map and wraps the map, the key selector and (only if one is set) the key router in a `DynamicMapper`.
- **Factory and configuration selection (`getLocalSqlSessionFactory`, `getConfiguration`).** Both branch on the number of delegates.
- **The session interceptor (`MultiDataSourceSqlSessionInterceptor.invoke`).** It acquires a session, runs the call on it, and forces a commit when the session is not transactional. On failure it unwraps the cause and, if a translator is set and the cause is a `PersistenceException`, releases the session before translating. On every path it releases the session exactly once, provided `closeSqlSession` returns normally.

Files:

- `collaborators.dfy` (module `Collaborators`): the values the template exchanges with MyBatis, MyBatis-Spring and sqlhelper. Keys, configurations, factories (plain or dynamic), sessions, throwables, the translator, the outcome of a call, and `SessionSupport`, which bundles the library calls the interceptor makes as functions of their arguments.
- `lifecycle.dfy` (module `SessionLifecycle`): the ghost event log of one intercepted call (`Acquire`, `Execute`, `Commit`, `Close`, `Translate`) and the session state machine it must follow (acquired, executed, committed, released, translated). It also holds the lemmas that every accepted log acquires once, releases exactly once, commits at most once, touches the session no more after the release, and runs the translator only after it.
- `template.dfy` (module `DynamicSqlSession`): the classes `DynamicSqlSessionTemplate` and `MultiDataSourceSqlSessionInterceptor`.

Modelling choices:

- The super class's final fields (factory, executor type, exception translator) are `const` fields. They are set by the constructors.
- `selector` and `mapperDataSourceKeyRouter` are `var` fields that the setters reassign. A Java `null` is `None`.
- The downcast `(DynamicSqlSessionFactory) getSqlSessionFactory()` is a `Result`. It fails with `ClassCastException` when the template's factory is not dynamic. That error is propagated by `GetMapper`, `GetLocalSqlSessionFactory` and `GetConfiguration`.
- `DynamicSqlSessionFactory.size()` is taken to be the number of delegates. That class is not part of this model.
- The overridden `getSqlSessionFactory()` (DynamicSqlSessionTemplate.java:84-87) only returns the super class's field. Here that is the `const` field `sqlSessionFactory`.
- `Configuration.getMapper(mapperInterface, this)` is the function parameter `configurationGetMapper` of `GetMapper`, applied to the template itself. It answers a mapper, or `BindingException` when the configuration does not know the interface. Such a failure ends `GetMapper` without a `DynamicMapper`.
- `GetMapper`'s loop visits the delegate keys in the delegates map's own order. A successful result does not depend on that order. When several delegates fail, the order decides which failure is reported.
- In `Invoke`, `Method.invoke` becomes the parameter `target`, which maps a session to `Returned(value)` or `Threw(error)`. The library calls are the fields of `SessionSupport`. The log records each side effect in order.
- An exception thrown by `commit(true)` lies inside the `try` block. It therefore takes the same unwrap/translate path as one thrown by the call, and the model keeps that.

Behaviour of the code worth noting:

- The two-argument constructor ignores its executor type and always configures `SIMPLE`.
- Both constructors pass a `null` exception translator to the super class. A template built by either constructor therefore never translates. `Invoke` is still specified for any translator the template might hold, as its code is written.
- No rollback is issued on the failure path. The session is simply closed, with `SqlSessionUtils.closeSqlSession` deciding what that means. The state machine therefore has no rollback phase.
- In the one-delegate and the many-delegate branches, `getLocalSqlSessionFactory` returns the same object, the template's own factory. So `getConfiguration` returns the dynamic factory's own configuration in both branches. The else branch of `getLocalSqlSessionFactory` carries only a placeholder comment (line 94).

## Model

| member | source | states |
|---|---|---|
| `DynamicSqlSession.DynamicSqlSessionTemplate.constructor` | sqlhelper-mybatis-spring-common/src/main/java/com/jn/sqlhelper/mybatis/spring/datasource/DynamicSqlSessionTemplate.java:41-43 | the one-argument constructor keeps the given factory, configures executor type SIMPLE and no translator, and leaves selector and router unset |
| `DynamicSqlSession.DynamicSqlSessionTemplate.WithExecutorType` | sqlhelper-mybatis-spring-common/src/main/java/com/jn/sqlhelper/mybatis/spring/datasource/DynamicSqlSessionTemplate.java:45-47 | whatever executor type is passed (including null), the template's executor type is SIMPLE and its translator is null |
| `DynamicSqlSession.DynamicSqlSessionTemplate.SetSelector` | sqlhelper-mybatis-spring-common/src/main/java/com/jn/sqlhelper/mybatis/spring/datasource/DynamicSqlSessionTemplate.java:49-51 | the selector becomes the argument; nothing else changes |
| `DynamicSqlSession.DynamicSqlSessionTemplate.SetMapperDataSourceKeyRouter` | sqlhelper-mybatis-spring-common/src/main/java/com/jn/sqlhelper/mybatis/spring/datasource/DynamicSqlSessionTemplate.java:53-55 | the router becomes the argument; nothing else changes |
| `DynamicSqlSession.DynamicSqlSessionTemplate.GetDynamicSqlSessionFactory` | sqlhelper-mybatis-spring-common/src/main/java/com/jn/sqlhelper/mybatis/spring/datasource/DynamicSqlSessionTemplate.java:57-59 | the downcast succeeds exactly when the template's factory is dynamic, and then yields that same factory |
| `DynamicSqlSession.DynamicSqlSessionTemplate.GetMapper` | sqlhelper-mybatis-spring-common/src/main/java/com/jn/sqlhelper/mybatis/spring/datasource/DynamicSqlSessionTemplate.java:67-82 | fails with `ClassCastException` when the factory is not dynamic, and with a delegate's own `getMapper` failure when some delegate's configuration does not know the interface; it succeeds exactly when the factory is dynamic and every delegate's `getMapper` succeeds, and then the dispatch map has exactly the delegates' key set, each key maps to the mapper its own delegate's configuration built for this template, the selector is always passed in, and a router is attached if and only if the template has one |
| `DynamicSqlSession.DynamicSqlSessionTemplate.GetLocalSqlSessionFactory` | sqlhelper-mybatis-spring-common/src/main/java/com/jn/sqlhelper/mybatis/spring/datasource/DynamicSqlSessionTemplate.java:89-96 | fails exactly when the downcast fails; otherwise both branches on the delegate count yield the template's own factory |
| `DynamicSqlSession.DynamicSqlSessionTemplate.GetConfiguration` | sqlhelper-mybatis-spring-common/src/main/java/com/jn/sqlhelper/mybatis/spring/datasource/DynamicSqlSessionTemplate.java:104-111 | fails exactly when the downcast fails; otherwise, with one or with many delegates, it is the dynamic factory's configuration, and with a delegate count other than one it equals the local factory's configuration |
| `DynamicSqlSession.MultiDataSourceSqlSessionInterceptor.constructor` | sqlhelper-mybatis-spring-common/src/main/java/com/jn/sqlhelper/mybatis/spring/datasource/DynamicSqlSessionTemplate.java:120 | the interceptor is bound to its enclosing template |
| `DynamicSqlSession.MultiDataSourceSqlSessionInterceptor.Invoke` | sqlhelper-mybatis-spring-common/src/main/java/com/jn/sqlhelper/mybatis/spring/datasource/DynamicSqlSessionTemplate.java:123-153 | the log is the lifecycle of the session acquired for the template's factory, executor type and translator, and the state machine accepts it; the session is closed exactly once; on success the call's own result is returned; `commit(true)` is issued once exactly when the call returned on a non-transactional session, never after a failed call; a failure is returned as the unwrapped cause, or as the translator's non-null result when a translator is set and the cause is a `PersistenceException`; the translator runs once on that path only, on the unwrapped cause, after the close |
| `SessionLifecycle.LifecycleAccepted` | sqlhelper-mybatis-spring-common/src/main/java/com/jn/sqlhelper/mybatis/spring/datasource/DynamicSqlSessionTemplate.java:124-152 | every log an intercepted call can produce (with or without the forced commit, with or without translation) is accepted by the session state machine, closes once, commits once exactly when it commits, and translates only after the close |
| `SessionLifecycle.AcceptedLog` | sqlhelper-mybatis-spring-common/src/main/java/com/jn/sqlhelper/mybatis/spring/datasource/DynamicSqlSessionTemplate.java:124-152 | any log the state machine accepts starts by acquiring a session and executing on it, acquires and releases exactly once, commits and translates at most once, has nothing but a translation after the release, and has no translation without an earlier release |
| `SessionLifecycle.RunCounts` | sqlhelper-mybatis-spring-common/src/main/java/com/jn/sqlhelper/mybatis/spring/datasource/DynamicSqlSessionTemplate.java:136-152 | from any phase, a run that ends released closes exactly as often as that phase still owes, commits and translates at most as often as allowed, and translates only after a close |

## Left out

- `Proxy.newProxyInstance` (DynamicSqlSessionTemplate.java:81): reflection and proxying. `GetMapper` returns the `DynamicMapper` handler itself, not a proxy implementing the mapper interface.
- `DynamicMapper`, `DataSourceKeySelector` and `DataSourceKeyRouter`: how a call picks its data source key belongs to classes that are not part of this model. The template only passes them through, and here they are opaque values.
- `SqlSessionUtils.getSqlSession`, `isSqlSessionTransactional`, `closeSqlSession`, `ExceptionUtil.unwrapThrowable`, `Configuration.getMapper` and `PersistenceExceptionTranslator`: foreign library calls. Each is an uninterpreted function argument or a log event. Spring's transaction synchronisation is not modelled.
- `DynamicSqlSession.MultiDataSourceSqlSessionInterceptor.Invoke`: it does not model exceptions thrown by `isSqlSessionTransactional`, by `closeSqlSession` or by the translator itself. Only the call and `commit(true)` may throw. That makes the exactly-one-close promise conditional on `closeSqlSession` returning normally. If the early close at DynamicSqlSessionTemplate.java:140 throws, `sqlSession = null` (line 141) never runs. The `finally` at lines 149-150 then closes the session a second time, and the caller sees the close's error, not the cause.
- `DynamicSqlSession.MultiDataSourceSqlSessionInterceptor.Invoke`: the interceptor class is declared but never instantiated in the template. It is modelled as the behaviour its code states, not as wiring into the super class's session proxy.
- The thread-local routing state and concurrency: the model has no threads.
- `DynamicSqlSession.DynamicSqlSessionTemplate.GetConfiguration`: its Javadoc (DynamicSqlSessionTemplate.java:99-102) promises, for several data sources, the primary data source's configuration when none is chosen and the chosen one's otherwise. No contract here states that. The template returns the dynamic factory's own configuration in both branches. Whether that is the per-data-source choice depends on the ambient key and on `DynamicSqlSessionFactory.getConfiguration()`, a class that is not part of this model. Either that class keeps the promise or the template does not.
- A null `sqlSessionFactory`: both constructors hand it on to the super class (lines 42 and 46), whose constructor rejects it. The model has no null factory, so that rejection is not modelled.
- `TomcatJdbcDataSourceFactory` (sqlhelper-datasource): a thin wrapper around Tomcat pool construction. Its key check lives in a class that is not part of this model.
- `DatabaseIdProviderAutoConfiguration`: Spring bean wiring with no logic.
